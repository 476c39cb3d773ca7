/** The cell-broadcast configuration: printing the ranges for AT+CSCB and reading
    them back from the modem's answer (3GPP TS 27.005, section 3.3.4).  */
module BroadcastConfig {
  import opened Decimal
  import opened AtTok

  const MAX_ID := 0xffff

  datatype Range = Range(lo: int, hi: int)

  datatype Config = Config(ids: Range, schemes: Range, selected: bool)

  predicate Printable(v: int) {
    0 <= v <= MAX_ID
  }

  predicate InRange(c: Config) {
    && 0 <= c.ids.lo <= 65535 && 0 <= c.ids.hi <= 65535
    && 0 <= c.schemes.lo <= 65535 && 0 <= c.schemes.hi <= 65535
  }

  // ----- printing -----

  /** One number after its mark; nothing at all for an id that does not fit. */
  function Marked(mark: string, v: int): string {
    if Printable(v) then mark + Print(v) else ""
  }

  function IdField(mark: string, r: Range): string {
    Marked(mark, r.lo) + if r.lo == r.hi then "" else Marked("-", r.hi)
  }

  function SchemeField(mark: string, r: Range): string {
    Marked(mark, r.lo) + Marked("-", r.hi)
  }

  function Mark(i: nat): string {
    if i == 0 then "\"" else ","
  }

  function Channels(cs: seq<Config>): string {
    if cs == [] then ""
    else Channels(cs[..|cs| - 1]) + IdField(Mark(|cs| - 1), cs[|cs| - 1].ids)
  }

  function Schemes(cs: seq<Config>): string {
    if cs == [] then ""
    else Schemes(cs[..|cs| - 1]) + SchemeField(Mark(|cs| - 1), cs[|cs| - 1].schemes)
  }

  function OrQuote(s: string): string {
    if s == "" then "\"" else s
  }

  /** The mode sent is the negation of the first entry's `selected`. */
  function ModeSent(cs: seq<Config>): int {
    if cs != [] && !cs[0].selected then 1 else 0
  }

  /** What stands after "AT+CSCB=" in the command. */
  function Parameters(cs: seq<Config>): string {
    Print(ModeSent(cs)) + "," + OrQuote(Channels(cs)) + "\"," + OrQuote(Schemes(cs)) + "\""
  }

  predicate FitsNowhere(c: Config) {
    !Printable(c.ids.lo) && !Printable(c.ids.hi) && !Printable(c.schemes.lo) && !Printable(c.schemes.hi)
  }

  lemma {:induction false} NothingPrinted(cs: seq<Config>)
    requires forall c <- cs :: FitsNowhere(c)
    ensures Channels(cs) == "" && Schemes(cs) == ""
  {
    if cs != [] {
      assert FitsNowhere(cs[|cs| - 1]);
      assert forall c <- cs[..|cs| - 1] :: c in cs;
      NothingPrinted(cs[..|cs| - 1]);
    }
  }

  /** Ids that do not fit are printed as nothing, their mark included: a list of none
      that fit is an empty pair of quotes.  */
  lemma {:induction false} NothingFits(cs: seq<Config>)
    requires forall c <- cs :: FitsNowhere(c)
    ensures Parameters(cs) == (if cs != [] && !cs[0].selected then "1" else "0") + "," + "\"" + "\"," + "\"" + "\""
  {
    NothingPrinted(cs);
  }

  // ----- the quoted lists -----

  /** A single id is printed without a dash; a code scheme range always has one. */
  function IdText(r: Range): string {
    Print(r.lo) + if r.lo == r.hi then "" else "-" + Print(r.hi)
  }

  function SchemeText(r: Range): string {
    Print(r.lo) + "-" + Print(r.hi)
  }

  function IdTexts(cs: seq<Config>): seq<string> {
    seq(|cs|, i requires 0 <= i < |cs| => IdText(cs[i].ids))
  }

  function SchemeTexts(cs: seq<Config>): seq<string> {
    seq(|cs|, i requires 0 <= i < |cs| => SchemeText(cs[i].schemes))
  }

  function Join(items: seq<string>): string {
    if items == [] then "" else if |items| == 1 then items[0] else items[0] + "," + Join(items[1..])
  }

  lemma {:induction false} JoinLast(items: seq<string>)
    requires |items| > 1
    ensures Join(items) == Join(items[..|items| - 1]) + "," + items[|items| - 1]
    decreases |items|
  {
    var n := |items| - 1;
    if n == 1 {
      assert items[1..] == [items[1]] && items[..1] == [items[0]];
    } else {
      JoinLast(items[1..]);
      assert items[1..][..n - 1] == items[..n][1..];
    }
  }

  lemma {:induction false} FieldTexts(mark: string, c: Config)
    requires InRange(c)
    ensures IdField(mark, c.ids) == mark + IdText(c.ids)
    ensures SchemeField(mark, c.schemes) == mark + SchemeText(c.schemes)
  {
    assert Marked("-", c.schemes.hi) == "-" + Print(c.schemes.hi);
  }

  lemma {:induction false} PrintedIdsStep(cs: seq<Config>)
    requires |cs| > 1 && InRange(cs[|cs| - 1])
    requires Channels(cs[..|cs| - 1]) == "\"" + Join(IdTexts(cs[..|cs| - 1]))
    ensures Channels(cs) == "\"" + Join(IdTexts(cs))
  {
    var n := |cs| - 1;
    FieldTexts(",", cs[n]);
    assert IdTexts(cs)[..n] == IdTexts(cs[..n]);
    QuotedLast(IdTexts(cs), Channels(cs[..n]), IdField(",", cs[n].ids));
  }

  /** For ids that fit, the printed ids are one quoted comma-separated list. */
  lemma {:induction false} PrintedIds(cs: seq<Config>)
    requires cs != [] && forall c <- cs :: InRange(c)
    ensures Channels(cs) == "\"" + Join(IdTexts(cs))
    decreases |cs|
  {
    assert cs[|cs| - 1] in cs;
    if |cs| == 1 {
      FieldTexts("\"", cs[0]);
      assert Channels(cs[..0]) == "";
    } else {
      assert forall c <- cs[..|cs| - 1] :: c in cs;
      PrintedIds(cs[..|cs| - 1]);
      PrintedIdsStep(cs);
    }
  }

  lemma {:induction false} PrintedSchemesStep(cs: seq<Config>)
    requires |cs| > 1 && InRange(cs[|cs| - 1])
    requires Schemes(cs[..|cs| - 1]) == "\"" + Join(SchemeTexts(cs[..|cs| - 1]))
    ensures Schemes(cs) == "\"" + Join(SchemeTexts(cs))
  {
    var n := |cs| - 1;
    FieldTexts(",", cs[n]);
    assert SchemeTexts(cs)[..n] == SchemeTexts(cs[..n]);
    QuotedLast(SchemeTexts(cs), Schemes(cs[..n]), SchemeField(",", cs[n].schemes));
  }

  /** And so are the printed code schemes. */
  lemma {:induction false} PrintedSchemes(cs: seq<Config>)
    requires cs != [] && forall c <- cs :: InRange(c)
    ensures Schemes(cs) == "\"" + Join(SchemeTexts(cs))
    decreases |cs|
  {
    assert cs[|cs| - 1] in cs;
    if |cs| == 1 {
      FieldTexts("\"", cs[0]);
      assert Schemes(cs[..0]) == "";
    } else {
      assert forall c <- cs[..|cs| - 1] :: c in cs;
      PrintedSchemes(cs[..|cs| - 1]);
      PrintedSchemesStep(cs);
    }
  }

  lemma {:induction false} QuotedLast(items: seq<string>, before: string, field: string)
    requires |items| > 1
    requires before == "\"" + Join(items[..|items| - 1]) && field == "," + items[|items| - 1]
    ensures before + field == "\"" + Join(items)
  {
    JoinLast(items);
    Reassociate("\"", Join(items[..|items| - 1]), ",", items[|items| - 1]);
  }

  lemma {:induction false} Reassociate(a: string, b: string, c: string, d: string)
    ensures (a + b) + (c + d) == a + (b + c + d)
  {
  }

  /** The whole command for ids that fit: the mode, which is 0 if the first entry is
      selected, the quoted list of ids and the quoted list of schemes.  */
  lemma {:induction false} CommandFormat(cs: seq<Config>)
    requires cs != [] && forall c <- cs :: InRange(c)
    ensures Parameters(cs)
         == (if cs[0].selected then "0" else "1") + "," + ("\"" + Join(IdTexts(cs))) + "\","
            + ("\"" + Join(SchemeTexts(cs))) + "\""
  {
    PrintedIds(cs);
    PrintedSchemes(cs);
  }

  // ----- reading -----

  /** A token is "from" or "from-to". */
  function ReadRange(tok: Cursor): Range {
    var (p, q) := StrSep(tok, '-');
    var lo := if p.At? then Atoi(p.text) else 0;
    Range(lo, if q.At? then Atoi(q.text) else lo)
  }

  function Entry(id: Cursor, scheme: Cursor, mode: int): Config {
    Config(ReadRange(id), ReadRange(scheme), mode != 0)
  }

  datatype Answer = Failure | Entries(configs: seq<Config>)

  function ReadEntries(ids: Cursor, schemes: Cursor, n: nat, mode: int): Answer
    decreases n
  {
    if n == 0 then Entries([])
    else if ids == Null || schemes == Null then Failure
    else
      var (id, ids1) := NextStr(ids);
      var (scheme, schemes1) := NextStr(schemes);
      Prefixed([Entry(id, scheme, mode)], ReadEntries(ids1, schemes1, n - 1, mode))
  }

  function Prefixed(configs: seq<Config>, a: Answer): Answer {
    match a
    case Failure => Failure
    case Entries(rest) => Entries(configs + rest)
  }

  function Commas(s: string): nat {
    if s == "" then 0 else Commas(s[1..]) + if s[0] == ',' then 1 else 0
  }

  datatype Header = Malformed | Header(mode: int, ids: string, schemes: string)

  /** The mode and the two lists of the modem's answer line. */
  function ReadHeader(line: string): Header {
    var c := Start(At(line));
    if c == Null then Malformed
    else
      var (modeText, c1) := NextStr(c);
      var (ids, c2) := NextStr(c1);
      var (schemes, _) := NextStr(c2);
      if modeText == Null || !StartsWithNumber(modeText.text) || ids == Null || schemes == Null then Malformed
      else Header(Atoi(modeText.text), ids.text, schemes.text)
  }

  /** The get handler on that line. */
  function Get(line: string): Answer {
    match ReadHeader(line)
    case Malformed => Failure
    case Header(mode, ids, schemes) => ReadEntries(At(ids), At(schemes), Commas(ids) + 1, mode)
  }

  /** The modem's answer to a query after that command. */
  function Reported(cs: seq<Config>): string {
    "+CSCB: " + Parameters(cs)
  }

  // ----- round trip -----

  /** Texts that can stand between commas. */
  ghost predicate Plain(s: string) {
    s != "" && IsDigit(s[0]) && forall c <- s :: IsDigit(c) || c == '-'
  }

  lemma {:induction false} PrintPlain(v: int)
    requires Printable(v)
    ensures Plain(Print(v)) && '-' !in Print(v)
  {
    assert forall c <- Print(v) :: IsDigit(c);
  }

  lemma {:induction false} TextsPlain(r: Range)
    requires Printable(r.lo) && Printable(r.hi)
    ensures Plain(IdText(r)) && Plain(SchemeText(r))
  {
    PrintPlain(r.lo);
    PrintPlain(r.hi);
  }

  lemma {:induction false} RangeRoundTrip(r: Range)
    requires Printable(r.lo) && Printable(r.hi)
    ensures ReadRange(At(IdText(r))) == r && ReadRange(At(SchemeText(r))) == r
  {
    var a, b := Print(r.lo), Print(r.hi);
    PrintPlain(r.lo);
    FindSep(a, '-', b);
    AtoiPrint(r.lo, []);
    AtoiPrint(r.hi, []);
    assert a + [] == a && b + [] == b;
    assert SchemeText(r) == a + ['-'] + b;
    if r.lo == r.hi {
      assert IdText(r) == a;
      assert forall j :: 0 <= j < |a| ==> a[j] in a;
    } else {
      assert IdText(r) == SchemeText(r);
    }
  }

  /** Reading the first of several joined texts leaves the rest. */
  lemma {:induction false} JoinedField(items: seq<string>)
    requires items != [] && forall s <- items :: Plain(s)
    ensures NextStr(At(Join(items))) == (At(items[0]), if |items| == 1 then Null else At(Join(items[1..])))
  {
    assert Plain(items[0]) by { assert items[0] in items; }
    PlainField(items[0], Join(items[1..]));
  }

  lemma {:induction false} EntryStep(id: Cursor, ids: Cursor, ids1: Cursor, scheme: Cursor, schemes: Cursor, schemes1: Cursor,
                  n: nat, mode: int)
    requires ids != Null && schemes != Null
    requires NextStr(ids) == (id, ids1) && NextStr(schemes) == (scheme, schemes1)
    ensures ReadEntries(ids, schemes, n + 1, mode)
         == Prefixed([Entry(id, scheme, mode)], ReadEntries(ids1, schemes1, n, mode))
  {
  }

  /** Where reading goes on after the first item. */
  function AfterFirst(items: seq<string>): Cursor
    requires items != []
  {
    if |items| == 1 then Null else At(Join(items[1..]))
  }

  lemma {:induction false} JoinedStep(ids: seq<string>, schemes: seq<string>, mode: int)
    requires ids != [] && |schemes| == |ids|
    requires (forall s <- ids :: Plain(s)) && (forall s <- schemes :: Plain(s))
    ensures ReadEntries(At(Join(ids)), At(Join(schemes)), |ids|, mode)
         == Prefixed([Entry(At(ids[0]), At(schemes[0]), mode)],
                     ReadEntries(AfterFirst(ids), AfterFirst(schemes), |ids| - 1, mode))
  {
    JoinedField(ids);
    JoinedField(schemes);
    EntryStep(At(ids[0]), At(Join(ids)), AfterFirst(ids),
              At(schemes[0]), At(Join(schemes)), AfterFirst(schemes), |ids| - 1, mode);
  }

  /** Entry by entry reading of two joined lists of equal length. */
  lemma {:induction false} ReadJoined(ids: seq<string>, schemes: seq<string>, mode: int)
    requires ids != [] && |schemes| == |ids|
    requires (forall s <- ids :: Plain(s)) && (forall s <- schemes :: Plain(s))
    ensures ReadEntries(At(Join(ids)), At(Join(schemes)), |ids|, mode) == Entries(ReadAll(ids, schemes, mode))
    decreases |ids|
  {
    JoinedStep(ids, schemes, mode);
    ReadAllStep(ids, schemes, mode);
    if |ids| > 1 {
      assert forall s <- ids[1..] :: s in ids;
      assert forall s <- schemes[1..] :: s in schemes;
      ReadJoined(ids[1..], schemes[1..], mode);
    }
  }

  lemma {:induction false} ReadAllStep(ids: seq<string>, schemes: seq<string>, mode: int)
    requires ids != [] && |schemes| == |ids|
    ensures ReadAll(ids, schemes, mode)
         == [Entry(At(ids[0]), At(schemes[0]), mode)]
            + if |ids| == 1 then [] else ReadAll(ids[1..], schemes[1..], mode)
  {
    var all, rest := ReadAll(ids, schemes, mode), ReadAll(ids[1..], schemes[1..], mode);
    forall i | 0 <= i < |ids| - 1 ensures all[i + 1] == rest[i] {
      assert ids[1..][i] == ids[i + 1] && schemes[1..][i] == schemes[i + 1];
    }
    assert all[1..] == rest;
    assert all == [all[0]] + all[1..];
  }

  function ReadAll(ids: seq<string>, schemes: seq<string>, mode: int): seq<Config>
    requires |schemes| == |ids|
  {
    seq(|ids|, i requires 0 <= i < |ids| => Entry(At(ids[i]), At(schemes[i]), mode))
  }

  lemma {:induction false} EntriesRoundTrip(cs: seq<Config>, mode: int)
    requires cs != [] && forall c <- cs :: InRange(c)
    ensures ReadEntries(At(Join(IdTexts(cs))), At(Join(SchemeTexts(cs))), |cs|, mode)
         == Entries(seq(|cs|, i requires 0 <= i < |cs| => cs[i].(selected := mode != 0)))
  {
    AllPlain(cs);
    ReadJoined(IdTexts(cs), SchemeTexts(cs), mode);
    var all := ReadAll(IdTexts(cs), SchemeTexts(cs), mode);
    forall i | 0 <= i < |cs| ensures all[i] == cs[i].(selected := mode != 0) {
      assert cs[i] in cs;
      RangeRoundTrip(cs[i].ids);
      RangeRoundTrip(cs[i].schemes);
    }
    assert all == seq(|cs|, i requires 0 <= i < |cs| => cs[i].(selected := mode != 0));
  }

  lemma {:induction false} AllPlain(cs: seq<Config>)
    requires forall c <- cs :: InRange(c)
    ensures forall s <- IdTexts(cs) :: Plain(s)
    ensures forall s <- SchemeTexts(cs) :: Plain(s)
  {
    forall i | 0 <= i < |cs| ensures Plain(IdTexts(cs)[i]) && Plain(SchemeTexts(cs)[i]) {
      assert cs[i] in cs;
      TextsPlain(cs[i].ids);
      TextsPlain(cs[i].schemes);
    }
  }

  lemma {:induction false} CommasConcat(a: string, b: string)
    ensures Commas(a + b) == Commas(a) + Commas(b)
  {
    if a == "" {
      assert a + b == b;
    } else {
      assert (a + b)[1..] == a[1..] + b;
      CommasConcat(a[1..], b);
    }
  }

  lemma {:induction false} NoCommas(s: string)
    requires ',' !in s
    ensures Commas(s) == 0
  {
    if s != "" {
      assert s[0] in s;
      assert forall c <- s[1..] :: c in s;
      NoCommas(s[1..]);
    }
  }

  lemma {:induction false} JoinShape(items: seq<string>)
    requires items != [] && forall s <- items :: Plain(s)
    ensures Commas(Join(items)) == |items| - 1
    ensures '"' !in Join(items)
    decreases |items|
  {
    assert Plain(items[0]) by { assert items[0] in items; }
    NoCommas(items[0]);
    if |items| > 1 {
      assert forall s <- items[1..] :: s in items;
      JoinShape(items[1..]);
      var rest := Join(items[1..]);
      CommasConcat(items[0] + ",", rest);
      CommasConcat(items[0], ",");
      assert Commas(",") == 1 by { assert ","[1..] == ""; }
    }
  }

  /** For every non-empty list of printable ranges, reading what was printed gives
      back the same id and code scheme ranges, single ids included. The `selected`
      flags come back as the negation of the first one sent.  */
  lemma {:induction false} RoundTrip(cs: seq<Config>)
    requires cs != [] && forall c <- cs :: InRange(c)
    ensures Get(Reported(cs))
         == Entries(seq(|cs|, i requires 0 <= i < |cs| => cs[i].(selected := !cs[0].selected)))
  {
    AllPlain(cs);
    PrintedIds(cs);
    PrintedSchemes(cs);
    JoinShape(IdTexts(cs));
    JoinShape(SchemeTexts(cs));
    ReadsFields(cs, Join(IdTexts(cs)), Join(SchemeTexts(cs)));
    EntriesRoundTrip(cs, ModeSent(cs));
  }

  lemma {:induction false} ReadsFields(cs: seq<Config>, ids: string, schemes: string)
    requires Channels(cs) == "\"" + ids && Schemes(cs) == "\"" + schemes
    requires '"' !in ids && '"' !in schemes
    ensures ReadHeader(Reported(cs)) == Header(ModeSent(cs), ids, schemes)
  {
    var mode := Print(ModeSent(cs));
    var tail := "\"" + schemes + "\"";
    var rest := "\"" + ids + "\"," + tail;
    ParametersText(mode, ids, schemes);
    assert Reported(cs) == "+CSCB: " + (mode + "," + rest);
    ModeField(ModeSent(cs), rest);
    QuotedField(ids, tail);
    QuotedField(schemes, "");
    AtoiPrint(ModeSent(cs), []);
    assert mode + [] == mode;
    HeaderFrom("+CSCB: " + (mode + "," + rest), mode, rest, ids, tail, schemes, At(""));
  }

  lemma {:induction false} HeaderFrom(line: string, mode: string, rest: string, ids: string, tail: string, schemes: string, end: Cursor)
    requires var c := Start(At(line));
      c != Null && NextStr(c) == (At(mode), At(rest)) && NextStr(At(rest)) == (At(ids), At(tail))
      && NextStr(At(tail)) == (At(schemes), end)
    requires StartsWithNumber(mode)
    ensures ReadHeader(line) == Header(Atoi(mode), ids, schemes)
  {
  }

  lemma {:induction false} ParametersText(mode: string, ids: string, schemes: string)
    ensures mode + "," + ("\"" + ids) + "\"," + ("\"" + schemes) + "\""
         == mode + "," + ("\"" + ids + "\"," + ("\"" + schemes + "\""))
  {
    var i, s := "\"" + ids, "\"" + schemes;
    var m := mode + ",";
    assert m + i + "\"," + s + "\"" == m + (i + "\"," + (s + "\""));
  }

  lemma {:induction false} ModeField(mode: int, rest: string)
    requires mode == 0 || mode == 1
    ensures Start(At("+CSCB: " + (Print(mode) + "," + rest))) != Null
    ensures NextStr(Start(At("+CSCB: " + (Print(mode) + "," + rest)))) == (At(Print(mode)), At(rest))
    ensures StartsWithNumber(Print(mode))
  {
    PrintPlain(mode);
    PlainField(Print(mode), rest);
    var body := Print(mode) + "," + rest;
    FindSep("+CSCB", ':', " " + body);
    assert "+CSCB: " + body == "+CSCB" + [':'] + (" " + body);
    assert (" " + body)[1..] == body;
    assert SkipSpace(" " + body) == SkipSpace(body) == body;
  }

  /** Reading a printed list back never returns the `selected` flag that was sent. */
  lemma {:induction false} SelectedComesBackInverted(cs: seq<Config>)
    requires cs != [] && forall c <- cs :: InRange(c)
    ensures Get(Reported(cs)).Entries? && |Get(Reported(cs)).configs| == |cs|
    ensures Get(Reported(cs)).configs[0].selected != cs[0].selected
  {
    RoundTrip(cs);
  }

  // ----- the handler's buffers -----

  /** setSmsBroadcastConfigData: one number with the mark that goes before it. */
  method ConfigData(v: int, idx: nat, isFirst: int) returns (text: string)
    ensures text == Marked(if idx == 0 && isFirst == 1 then "\"" else if isFirst == 2 then "-" else ",", v)
    ensures text == "" <==> v < 0 || v > 65535
  {
    text := "";
    if 0 <= v <= 0xffff {
      if idx == 0 && isFirst == 1 {
        text := "\"";
      } else if isFirst == 2 {
        text := "-";
      } else {
        text := ",";
      }
      text := text + Print(v);
    }
  }

  method ChannelData(ids: Range, i: nat) returns (text: string)
    ensures text == IdField(Mark(i), ids)
  {
    text := ConfigData(ids.lo, i, 1);
    if ids.lo != ids.hi {
      var last := ConfigData(ids.hi, i, 2);
      text := text + last;
    }
  }

  method SchemeData(schemes: Range, i: nat) returns (text: string)
    ensures text == SchemeField(Mark(i), schemes)
  {
    var first := ConfigData(schemes.lo, i, 1);
    var last := ConfigData(schemes.hi, i, 2);
    text := first + last;
  }

  lemma {:induction false} NextFields(cs: seq<Config>, i: nat)
    requires i < |cs|
    ensures Channels(cs[..i + 1]) == Channels(cs[..i]) + IdField(Mark(i), cs[i].ids)
    ensures Schemes(cs[..i + 1]) == Schemes(cs[..i]) + SchemeField(Mark(i), cs[i].schemes)
  {
    assert cs[..i + 1][..i] == cs[..i];
  }

  method Lists(cs: seq<Config>) returns (enable: int, channel: string, lang: string)
    requires cs != []
    ensures enable == ModeSent(cs) && channel == Channels(cs) && lang == Schemes(cs)
  {
    enable, channel, lang := 0, "", "";
    for i := 0 to |cs|
      invariant enable == if i > 0 then ModeSent(cs) else 0
      invariant channel == Channels(cs[..i]) && lang == Schemes(cs[..i])
    {
      NextFields(cs, i);
      if i == 0 {
        enable := if cs[i].selected then 0 else 1;
      }
      var entry := ChannelData(cs[i].ids, i);
      channel := channel + entry;
      entry := SchemeData(cs[i].schemes, i);
      lang := lang + entry;
    }
    assert cs[..|cs|] == cs;
  }

  /** requestSetSmsBroadcastConfig, up to the command it sends. */
  method SetSmsBroadcastConfig(cs: seq<Config>) returns (cmd: string)
    requires cs != []
    ensures cmd == "AT+CSCB=" + Parameters(cs)
  {
    var enable, channel, lang := Lists(cs);
    ChannelsLength(cs);
    if |lang| == 0 {
      lang := "\"";
    }
    if |channel| == 1 {
      channel := channel + "\"";
    }
    if |channel| == 0 {
      channel := "\"";
    }
    cmd := "AT+CSCB=" + (Print(enable) + "," + channel + "\"," + lang + "\"");
  }

  /** A mark never stands without its number. */
  lemma {:induction false} ChannelsLength(cs: seq<Config>)
    ensures |Channels(cs)| != 1
    decreases |cs|
  {
    if cs != [] {
      ChannelsLength(cs[..|cs| - 1]);
    }
  }

  method CountCommas(text: string) returns (commas: nat)
    ensures commas == Commas(text)
  {
    commas := 0;
    for i := 0 to |text|
      invariant commas + Commas(text[i..]) == Commas(text)
    {
      assert text[i..][1..] == text[i + 1..];
      if text[i] == ',' {
        commas := commas + 1;
      }
    }
  }

  /** requestGetSmsBroadcastConfig on the answer line. */
  method GetSmsBroadcastConfig(line: string) returns (answer: Answer)
    ensures answer == Get(line)
  {
    var header := ReadHeader(line);
    if header.Malformed? {
      return Failure;
    }
    var commas := CountCommas(header.ids);
    answer := ReadList(At(header.ids), At(header.schemes), header.mode, commas + 1);
    GetIs(line, header);
  }

  lemma {:induction false} GetIs(line: string, h: Header)
    requires h == ReadHeader(line) && h.Header?
    ensures Get(line) == ReadEntries(At(h.ids), At(h.schemes), Commas(h.ids) + 1, h.mode)
  {
  }

  /** What is still to be read, and what has been read, make up the answer. */
  ghost predicate Reading(answer: Answer, configs: seq<Config>, ids: Cursor, schemes: Cursor, n: nat, mode: int) {
    answer == Prefixed(configs, ReadEntries(ids, schemes, n, mode))
  }

  lemma {:induction false} ReadOne(answer: Answer, configs: seq<Config>, ids: Cursor, schemes: Cursor, n: nat, mode: int)
    requires Reading(answer, configs, ids, schemes, n + 1, mode)
    ensures ids == Null || schemes == Null ==> answer == Failure
    ensures ids != Null && schemes != Null ==>
      var (id, ids1) := NextStr(ids);
      var (scheme, schemes1) := NextStr(schemes);
      Reading(answer, configs + [Entry(id, scheme, mode)], ids1, schemes1, n, mode)
  {
    if ids != Null && schemes != Null {
      var (id, ids1) := NextStr(ids);
      var (scheme, schemes1) := NextStr(schemes);
      EntryStep(id, ids, ids1, scheme, schemes, schemes1, n, mode);
      PrefixedTwice(configs, Entry(id, scheme, mode), ReadEntries(ids1, schemes1, n, mode));
    }
  }

  lemma {:induction false} ReadNothing(ids: Cursor, schemes: Cursor, n: nat, mode: int)
    ensures Reading(ReadEntries(ids, schemes, n, mode), [], ids, schemes, n, mode)
  {
    var a := ReadEntries(ids, schemes, n, mode);
    assert a.Entries? ==> [] + a.configs == a.configs;
  }

  lemma {:induction false} ReadAllOf(answer: Answer, configs: seq<Config>, ids: Cursor, schemes: Cursor, mode: int)
    requires Reading(answer, configs, ids, schemes, 0, mode)
    ensures answer == Entries(configs)
  {
    assert configs + [] == configs;
  }

  method ReadList(ids0: Cursor, schemes0: Cursor, mode: int, n: nat) returns (answer: Answer)
    ensures answer == ReadEntries(ids0, schemes0, n, mode)
  {
    var ids, schemes := ids0, schemes0;
    var configs: seq<Config> := [];
    ghost var whole := ReadEntries(ids0, schemes0, n, mode);
    ReadNothing(ids0, schemes0, n, mode);
    for i := 0 to n
      invariant Reading(whole, configs, ids, schemes, n - i, mode)
    {
      ReadOne(whole, configs, ids, schemes, n - i - 1, mode);
      if ids == Null || schemes == Null {
        return Failure;
      }
      var (id, ids1) := NextStr(ids);
      var (scheme, schemes1) := NextStr(schemes);
      configs := configs + [Entry(id, scheme, mode)];
      ids, schemes := ids1, schemes1;
    }
    ReadAllOf(whole, configs, ids, schemes, mode);
    answer := Entries(configs);
  }

  lemma {:induction false} PrefixedTwice(configs: seq<Config>, c: Config, a: Answer)
    ensures Prefixed(configs, Prefixed([c], a)) == Prefixed(configs + [c], a)
  {
    if a.Entries? {
      assert configs + ([c] + a.configs) == configs + [c] + a.configs;
    }
  }
}
