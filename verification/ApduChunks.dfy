/** Sending an APDU to the secure element: one AT+CGLA command, or for a long APDU
    one for every 255 bytes of its data and one for the rest.  */
module ApduChunks {
  import opened BitCodec

  const MAX_CHUNK := 255
  const REMOVED := 7
  const LONG := 262

  /** "%02X" for every byte. */
  function Text(bytes: seq<Byte>): (s: string)
    ensures |s| == 2 * |bytes|
  {
    Hex(bytes, true)
  }

  /** The length that the command declares, and its hexadecimal argument. */
  datatype Command = Command(declared: nat, hex: string)

  predicate IsShort(apdu: seq<Byte>) {
    |apdu| == 7 && apdu[4] == 0
  }

  predicate IsLong(apdu: seq<Byte>) {
    |apdu| >= LONG && apdu[4] == 0
  }

  function Segments(apdu: seq<Byte>): nat
    requires IsLong(apdu)
  {
    (|apdu| - REMOVED) / MAX_CHUNK
  }

  function Block(apdu: seq<Byte>, i: nat): (b: seq<Byte>)
    requires IsLong(apdu) && i < Segments(apdu)
    ensures |b| == MAX_CHUNK
  {
    apdu[REMOVED + MAX_CHUNK * i..][..MAX_CHUNK]
  }

  function LastBlock(apdu: seq<Byte>): (b: seq<Byte>)
    requires IsLong(apdu)
    ensures |b| < MAX_CHUNK
  {
    apdu[REMOVED + MAX_CHUNK * Segments(apdu)..]
  }

  /** The head of the full chunks is written over by its own last byte. */
  function FullChunk(block: seq<Byte>): Command {
    Command(10 + MAX_CHUNK * 2, Text([0xFF]) + Text(block))
  }

  function LastChunk(head: seq<Byte>, block: seq<Byte>): Command
    requires |block| < MAX_CHUNK
  {
    Command(10 + |block| * 2, Text(head) + Text([|block|]) + Text(block))
  }

  function FullChunks(apdu: seq<Byte>, n: nat): (cmds: seq<Command>)
    requires IsLong(apdu) && n <= Segments(apdu)
    ensures |cmds| == n
  {
    seq(n, i requires 0 <= i < n => FullChunk(Block(apdu, i)))
  }

  /** The commands sent, in order. */
  function Commands(apdu: seq<Byte>): (cmds: seq<Command>)
    ensures cmds != []
  {
    if IsShort(apdu) then [Command(10, Text(apdu[..5]))]
    else if IsLong(apdu) then FullChunks(apdu, Segments(apdu)) + [LastChunk(apdu[..4], LastBlock(apdu))]
    else [Command(|apdu| * 2, Text(apdu))]
  }

  // ----- the payload -----

  /** The data of a long APDU's command, after its head. */
  function Payload(c: Command, last: bool): string {
    if last then c.hex[if |c.hex| < 10 then |c.hex| else 10..] else c.hex[if |c.hex| < 2 then |c.hex| else 2..]
  }

  /** The payloads of the commands from number `i` on. */
  function Payloads(cmds: seq<Command>, i: nat := 0): string
    requires i < |cmds|
    decreases |cmds| - i
  {
    if i == |cmds| - 1 then Payload(cmds[i], true) else Payload(cmds[i], false) + Payloads(cmds, i + 1)
  }

  lemma {:induction false} FullPayload(block: seq<Byte>)
    requires |block| == MAX_CHUNK
    ensures Payload(FullChunk(block), false) == Text(block)
  {
  }

  lemma {:induction false} LastPayload(head: seq<Byte>, block: seq<Byte>)
    requires |head| == 4 && |block| < MAX_CHUNK
    ensures Payload(LastChunk(head, block), true) == Text(block)
  {
    var h := Text(head) + Text([|block|]);
    assert (h + Text(block))[10..] == Text(block);
  }

  /** The data from block `i` on. */
  function From(apdu: seq<Byte>, i: nat): seq<Byte>
    requires IsLong(apdu) && i <= Segments(apdu)
  {
    apdu[REMOVED + MAX_CHUNK * i..]
  }

  lemma {:induction false} SplitBlock(apdu: seq<Byte>, i: nat)
    requires IsLong(apdu) && i < Segments(apdu)
    ensures From(apdu, i) == Block(apdu, i) + From(apdu, i + 1)
  {
  }

  /** The commands of a long APDU, one by one. */
  ghost predicate Sent(apdu: seq<Byte>, cmds: seq<Command>, n: nat) {
    && IsLong(apdu) && |cmds| - 1 == n == Segments(apdu)
    && (forall k :: 0 <= k < n ==> cmds[k] == FullChunk(Block(apdu, k)))
    && cmds[n] == LastChunk(apdu[..4], LastBlock(apdu))
  }

  /** The commands from number `i` on carry the data from block `i` on. */
  ghost predicate Carries(apdu: seq<Byte>, cmds: seq<Command>, n: nat, i: nat) {
    Sent(apdu, cmds, n) && i <= n && Payloads(cmds, i) == Text(From(apdu, i))
  }

  lemma {:induction false} BlockThenRest(apdu: seq<Byte>, cmds: seq<Command>, n: nat, i: nat)
    requires Sent(apdu, cmds, n) && i < n
    requires Carries(apdu, cmds, n, i + 1)
    ensures Carries(apdu, cmds, n, i)
  {
    assert cmds[i] == FullChunk(Block(apdu, i));
    FullPayload(Block(apdu, i));
    SplitBlock(apdu, i);
    HexConcat(Block(apdu, i), From(apdu, i + 1), true);
  }

  lemma {:induction false} LastPayloads(apdu: seq<Byte>, cmds: seq<Command>, n: nat)
    requires Sent(apdu, cmds, n)
    ensures Carries(apdu, cmds, n, n)
  {
    LastPayload(apdu[..4], LastBlock(apdu));
  }

  lemma {:induction false} Downwards(p: nat -> bool, n: nat, i: nat)
    requires i <= n && p(n)
    requires forall k: nat :: k < n && p(k + 1) ==> p(k)
    ensures p(i)
    decreases n - i
  {
    if i < n {
      Downwards(p, n, i + 1);
    }
  }

  /** All blocks are carried, from the last one down to the first. */
  lemma {:induction false} PayloadsFrom(apdu: seq<Byte>, cmds: seq<Command>, n: nat)
    requires Sent(apdu, cmds, n)
    ensures Carries(apdu, cmds, n, 0)
  {
    var p: nat -> bool := (k: nat) => Carries(apdu, cmds, n, k);
    LastPayloads(apdu, cmds, n);
    forall k: nat | k < n && p(k + 1) ensures p(k) {
      BlockThenRest(apdu, cmds, n, k);
    }
    Downwards(p, n, 0);
  }

  /** For every long APDU the commands carry exactly the bytes from the eighth on:
      none is lost, repeated or moved.  */
  lemma {:induction false} PayloadCovered(apdu: seq<Byte>)
    requires IsLong(apdu)
    ensures var text := Payloads(Commands(apdu));
      text == Text(apdu[REMOVED..]) && IsHex(text) && Unhex(text) == apdu[REMOVED..]
  {
    PayloadsFrom(apdu, Commands(apdu), Segments(apdu));
    UnhexHex(apdu[REMOVED..], true);
  }

  /** A command declares the length of its argument exactly if it is the last one; a
      full chunk declares the four head bytes it has lost.  */
  lemma {:induction false} DeclaredLength(apdu: seq<Byte>, i: nat)
    requires i < |Commands(apdu)|
    ensures Commands(apdu)[i].declared == |Commands(apdu)[i].hex| <==> i == |Commands(apdu)| - 1
    ensures i < |Commands(apdu)| - 1 ==> Commands(apdu)[i].declared == |Commands(apdu)[i].hex| + 8
  {
    if IsLong(apdu) && i < Segments(apdu) {
      assert Commands(apdu)[i] == FullChunk(Block(apdu, i));
    }
  }

  /** Whatever its length, an APDU that is neither is sent whole. */
  lemma {:induction false} SentWhole(apdu: seq<Byte>)
    requires !IsShort(apdu) && !IsLong(apdu)
    ensures |Commands(apdu)| == 1 && IsHex(Commands(apdu)[0].hex) && Unhex(Commands(apdu)[0].hex) == apdu
  {
    UnhexHex(apdu, true);
  }

  // ----- the commands, byte by byte -----

  /** The hexadecimal text of these bytes, in capitals. */
  ghost predicate Spells(hex: string, bytes: seq<Byte>) {
    && |hex| == 2 * |bytes|
    && forall k :: 0 <= k < |bytes| ==>
         hex[2 * k] == "0123456789ABCDEF"[bytes[k] / 16] && hex[2 * k + 1] == "0123456789ABCDEF"[bytes[k] % 16]
  }

  lemma {:induction false} TextSpells(bytes: seq<Byte>)
    ensures Spells(Text(bytes), bytes)
  {
  }

  /** An APDU of seven bytes without data loses its last two. */
  lemma {:induction false} ShortFormat(apdu: seq<Byte>)
    requires |apdu| == 7 && apdu[4] == 0
    ensures |Commands(apdu)| == 1 && Commands(apdu)[0].declared == 10 && Spells(Commands(apdu)[0].hex, apdu[..5])
  {
    TextSpells(apdu[..5]);
  }

  lemma {:induction false} FullFormat(block: seq<Byte>)
    requires |block| == 255
    ensures FullChunk(block).declared == 520 && Spells(FullChunk(block).hex, [0xFF] + block)
  {
    HexConcat([0xFF], block, true);
    TextSpells([0xFF] + block);
  }

  lemma {:induction false} LastFormat(head: seq<Byte>, block: seq<Byte>)
    requires |head| == 4 && |block| < 255
    ensures LastChunk(head, block).declared == 10 + 2 * |block|
    ensures Spells(LastChunk(head, block).hex, head + [|block|] + block)
  {
    HexConcat(head, [|block|], true);
    HexConcat(head + [|block|], block, true);
    TextSpells(head + [|block|] + block);
  }

  lemma {:induction false} LongCommand(apdu: seq<Byte>, i: nat, n: nat)
    requires IsLong(apdu) && n == Segments(apdu) && i <= n
    ensures |Commands(apdu)| == n + 1
    ensures i < n ==> Commands(apdu)[i] == FullChunk(Block(apdu, i))
    ensures i == n ==> Commands(apdu)[i] == LastChunk(apdu[..4], LastBlock(apdu))
  {
  }

  /** One of at least 262 bytes with extended length is cut into blocks of 255 bytes
      from the eighth byte on: each is sent after the single byte FF, and declares 520
      characters.  */
  lemma {:induction false} LongFormat(apdu: seq<Byte>, i: nat)
    requires |apdu| >= 262 && apdu[4] == 0 && i < (|apdu| - 7) / 255
    ensures |Commands(apdu)| == (|apdu| - 7) / 255 + 1
    ensures Commands(apdu)[i].declared == 520
    ensures Spells(Commands(apdu)[i].hex, [0xFF] + apdu[7 + 255 * i..7 + 255 * i + 255])
  {
    LongCommand(apdu, i, Segments(apdu));
    FullFormat(Block(apdu, i));
    assert Block(apdu, i) == apdu[7 + 255 * i..7 + 255 * i + 255];
  }

  /** The rest follows after the first four bytes and its own length. */
  lemma {:induction false} RestFormat(apdu: seq<Byte>)
    requires |apdu| >= 262 && apdu[4] == 0
    ensures var n, last := (|apdu| - 7) / 255, (|apdu| - 7) % 255;
      && |Commands(apdu)| == n + 1 && Commands(apdu)[n].declared == 10 + 2 * last
      && Spells(Commands(apdu)[n].hex, apdu[..4] + [last] + apdu[7 + 255 * n..])
  {
    var n := Segments(apdu);
    LongCommand(apdu, n, n);
    assert |LastBlock(apdu)| == (|apdu| - 7) % 255;
    LastFormat(apdu[..4], LastBlock(apdu));
  }

  /** Any other APDU is sent as it is. */
  lemma {:induction false} PlainFormat(apdu: seq<Byte>)
    requires |apdu| < 5 || apdu[4] != 0 || (|apdu| != 7 && |apdu| < 262)
    ensures |Commands(apdu)| == 1
    ensures Commands(apdu)[0].declared == 2 * |apdu| && Spells(Commands(apdu)[0].hex, apdu)
  {
    TextSpells(apdu);
  }

  // ----- the sending loops -----

  method Transmit(apdu: seq<Byte>) returns (cmds: seq<Command>)
    ensures cmds == Commands(apdu)
  {
    if |apdu| == 7 && apdu[4] == 0 {
      var tmp := AppendHex(apdu, 0, 5);
      assert apdu[0..][..5] == apdu[..5];
      cmds := [Command(10, tmp)];
    } else if |apdu| >= 262 && apdu[4] == 0 {
      cmds := TransmitLong(apdu);
    } else {
      var tmp := AppendHex(apdu, 0, |apdu|);
      assert apdu[0..][..|apdu|] == apdu;
      cmds := [Command(|apdu| * 2, tmp)];
    }
  }

  method TransmitLong(apdu: seq<Byte>) returns (cmds: seq<Command>)
    requires IsLong(apdu)
    ensures cmds == FullChunks(apdu, Segments(apdu)) + [LastChunk(apdu[..4], LastBlock(apdu))]
  {
    var lastP3 := (|apdu| - 7) % 255;
    var segmentNum := (|apdu| - 7) / 255;
    var commonHead := AppendHex(apdu, 0, 4);
    assert apdu[0..][..4] == apdu[..4];
    var lastHead := commonHead + Text([lastP3]);
    commonHead := Text([0xFF]);
    cmds := FullCommands(apdu, commonHead, segmentNum);
    var tmp := AppendHex(apdu, 7 + 255 * segmentNum, lastP3);
    assert apdu[7 + 255 * segmentNum..][..lastP3] == LastBlock(apdu);
    cmds := cmds + [Command(10 + lastP3 * 2, lastHead + tmp)];
  }

  method FullCommands(apdu: seq<Byte>, commonHead: string, segmentNum: nat) returns (cmds: seq<Command>)
    requires IsLong(apdu) && segmentNum == Segments(apdu) && commonHead == Text([0xFF])
    ensures cmds == FullChunks(apdu, segmentNum)
  {
    cmds := [];
    for i := 0 to segmentNum
      invariant cmds == FullChunks(apdu, i)
    {
      var tmp := AppendHex(apdu, 7 + 255 * i, 255);
      var cmd := Command(10 + 255 * 2, commonHead + tmp);
      assert cmd == FullChunk(Block(apdu, i));
      cmds := cmds + [cmd];
    }
  }

  /** `count` bytes from `at` on, two digits each. */
  method AppendHex(apdu: seq<Byte>, at: nat, count: nat) returns (tmp: string)
    requires at + count <= |apdu|
    ensures tmp == Text(apdu[at..][..count])
  {
    tmp := "";
    for j := 0 to count
      invariant tmp == Text(apdu[at..][..j])
    {
      assert apdu[at..][..j + 1] == apdu[at..][..j] + [apdu[at + j]];
      HexConcat(apdu[at..][..j], [apdu[at + j]], true);
      tmp := tmp + [HexDigit(apdu[at + j] / 16, true), HexDigit(apdu[at + j] % 16, true)];
    }
  }
}
