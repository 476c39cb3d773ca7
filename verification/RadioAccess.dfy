/** Radio access families as 32-bit masks, and the network modes 0 to 33 that stand
    for some of them.  */
module RadioAccess {
  type Mask = bv32

  const UNKNOWN: Mask := 0x0000_0001
  const GSM: Mask := 0x0001_0006       // GSM, GPRS, EDGE
  const CDMA: Mask := 0x0000_0070      // IS95A, IS95B, 1xRTT
  const EVDO: Mask := 0x0000_3180      // EVDO_0, EVDO_A, EVDO_B, EHRPD
  const WCDMA: Mask := 0x0000_8E08     // HSDPA, HSUPA, HSPA, HSPAP, UMTS
  const LTE: Mask := 0x0008_4000       // LTE, LTE_CA
  const TD_SCDMA: Mask := 0x0002_0000
  const NR: Mask := 0x0010_0000

  const WCDMA_PREF := 0
  const GSM_UMTS := 3
  const LAST_MODE := 33

  /** getRadioAccessFamilyFromNetworkMode */
  function MaskOf(mode: int): Mask {
    match mode
    case 0 => GSM | WCDMA
    case 1 => GSM
    case 2 => WCDMA
    case 3 => GSM | WCDMA
    case 4 => CDMA | EVDO
    case 5 => CDMA
    case 6 => EVDO
    case 7 => GSM | WCDMA | CDMA | EVDO
    case 8 => LTE | CDMA | EVDO
    case 9 => LTE | GSM | WCDMA
    case 10 => LTE | CDMA | EVDO | GSM | WCDMA
    case 11 => LTE
    case 12 => LTE | WCDMA
    case 13 => TD_SCDMA
    case 14 => TD_SCDMA | WCDMA
    case 15 => LTE | TD_SCDMA
    case 16 => TD_SCDMA | GSM
    case 17 => LTE | TD_SCDMA | GSM
    case 18 => TD_SCDMA | GSM | WCDMA
    case 19 => LTE | TD_SCDMA | WCDMA
    case 20 => LTE | TD_SCDMA | GSM | WCDMA
    case 21 => TD_SCDMA | CDMA | EVDO | GSM | WCDMA
    case 22 => LTE | TD_SCDMA | CDMA | EVDO | GSM | WCDMA
    case 23 => NR
    case 24 => NR | LTE
    case 25 => NR | LTE | CDMA | EVDO
    case 26 => NR | LTE | GSM | WCDMA
    case 27 => NR | LTE | CDMA | EVDO | GSM | WCDMA
    case 28 => NR | LTE | WCDMA
    case 29 => NR | LTE | TD_SCDMA
    case 30 => NR | LTE | TD_SCDMA | GSM
    case 31 => NR | LTE | TD_SCDMA | WCDMA
    case 32 => NR | LTE | TD_SCDMA | GSM | WCDMA
    case 33 => NR | LTE | TD_SCDMA | CDMA | EVDO | GSM | WCDMA
    case _ => UNKNOWN
  }

  function Complete(group: Mask, raf: Mask): Mask {
    if group & raf != 0 then group | raf else raf
  }

  function CompleteAll(groups: seq<Mask>, raf: Mask): Mask {
    if groups == [] then raf else CompleteAll(groups[1..], Complete(groups[0], raf))
  }

  const GROUPS: seq<Mask> := [GSM, WCDMA, CDMA, EVDO, LTE, NR]

  /** getAdjustedRaf */
  function Adjusted(raf: Mask): Mask {
    CompleteAll(GROUPS, raf)
  }

  /** getNetworkModeFromRadioAccessFamily */
  function ModeOf(raf: Mask): int {
    ModeOfAdjusted(Adjusted(raf))
  }

  function ModeOfAdjusted(a: Mask): int {
    if a == GSM | WCDMA then WCDMA_PREF
    else if a == GSM then 1
    else if a == WCDMA then 2
    else if a == CDMA | EVDO then 4
    else if a == LTE | CDMA | EVDO then 8
    else if a == LTE | GSM | WCDMA then 9
    else if a == LTE | CDMA | EVDO | GSM | WCDMA then 10
    else if a == LTE then 11
    else if a == LTE | WCDMA then 12
    else if a == CDMA then 5
    else if a == EVDO then 6
    else if a == GSM | WCDMA | CDMA | EVDO then 7
    else ModeOfTd(a)
  }

  /** The families with TD-SCDMA but without NR. */
  function ModeOfTd(a: Mask): int {
    if a == TD_SCDMA then 13
    else if a == TD_SCDMA | WCDMA then 14
    else if a == LTE | TD_SCDMA then 15
    else if a == TD_SCDMA | GSM then 16
    else if a == LTE | TD_SCDMA | GSM then 17
    else if a == TD_SCDMA | GSM | WCDMA then 18
    else if a == LTE | TD_SCDMA | WCDMA then 19
    else if a == LTE | TD_SCDMA | GSM | WCDMA then 20
    else if a == TD_SCDMA | CDMA | EVDO | GSM | WCDMA then 21
    else if a == LTE | TD_SCDMA | CDMA | EVDO | GSM | WCDMA then 22
    else ModeOfNr(a)
  }

  function ModeOfNr(a: Mask): int {
    if a == NR then 23
    else if a == NR | LTE then 24
    else if a == NR | LTE | CDMA | EVDO then 25
    else if a == NR | LTE | GSM | WCDMA then 26
    else if a == NR | LTE | CDMA | EVDO | GSM | WCDMA then 27
    else if a == NR | LTE | WCDMA then 28
    else if a == NR | LTE | TD_SCDMA then 29
    else if a == NR | LTE | TD_SCDMA | GSM then 30
    else if a == NR | LTE | TD_SCDMA | WCDMA then 31
    else if a == NR | LTE | TD_SCDMA | GSM | WCDMA then 32
    else if a == NR | LTE | TD_SCDMA | CDMA | EVDO | GSM | WCDMA then 33
    else WCDMA_PREF
  }

  /** A mask with all or none of a group's bits. */
  predicate Whole(group: Mask, raf: Mask) {
    group & raf == 0 || group & raf == group
  }

  predicate Closed(groups: seq<Mask>, raf: Mask) {
    forall i :: 0 <= i < |groups| ==> Whole(groups[i], raf)
  }

  predicate Within(a: Mask, b: Mask) {
    a & b == a
  }

  predicate Disjoint(groups: seq<Mask>) {
    forall i, j :: 0 <= i < j < |groups| ==> groups[i] & groups[j] == 0
  }

  // ----- laws of masks -----

  lemma {:induction false} Absorb(g: Mask, raf: Mask)
    ensures g & (g | raf) == g && raf & (g | raf) == raf
  {
  }

  lemma {:induction false} Join(g: Mask, raf: Mask, other: Mask)
    requires g & other == g && raf & other == raf
    ensures (g | raf) & other == g | raf
  {
  }

  lemma {:induction false} Apart(g: Mask, raf: Mask, other: Mask)
    requires g & other == 0
    ensures other & (g | raf) == other & raf
    ensures raf & other == raf ==> g & raf == 0
  {
  }

  lemma {:induction false} Transitive(a: Mask, b: Mask, c: Mask)
    requires a & b == a && b & c == b
    ensures a & c == a
  {
  }

  lemma {:induction false} Commutes(a: Mask, b: Mask)
    ensures a & b == b & a && a & a == a
  {
  }

  // ----- adjusting is a closure -----

  lemma {:induction false} CompleteHit(group: Mask, raf: Mask)
    requires group & raf != 0
    ensures group & Complete(group, raf) == group
  {
    Absorb(group, raf);
  }

  lemma {:induction false} CompleteWhole(group: Mask, raf: Mask)
    ensures Whole(group, Complete(group, raf))
  {
    if group & raf != 0 {
      CompleteHit(group, raf);
    }
  }

  lemma {:induction false} CompleteGrows(group: Mask, raf: Mask)
    ensures Within(raf, Complete(group, raf))
  {
    if group & raf != 0 {
      GrowsHit(group, raf);
    } else {
      GrowsMiss(group, raf);
    }
  }

  lemma {:induction false} GrowsHit(group: Mask, raf: Mask)
    requires group & raf != 0
    ensures Within(raf, Complete(group, raf))
  {
    Absorb(group, raf);
  }

  lemma {:induction false} GrowsMiss(group: Mask, raf: Mask)
    requires group & raf == 0
    ensures Within(raf, Complete(group, raf))
  {
    Commutes(raf, raf);
  }

  lemma {:induction false} CompleteLeast(group: Mask, raf: Mask, other: Mask)
    requires Whole(group, other) && Within(raf, other)
    ensures Within(Complete(group, raf), other)
  {
    if group & raf != 0 {
      if group & other == 0 {
        Apart(group, raf, other);
      }
      Join(group, raf, other);
    }
  }

  predicate Agree(other: Mask, a: Mask, b: Mask) {
    other & a == other & b
  }

  lemma {:induction false} ApartHit(group: Mask, raf: Mask, other: Mask)
    requires group & other == 0 && group & raf != 0
    ensures Agree(other, Complete(group, raf), raf)
  {
    Apart(group, raf, other);
  }

  lemma {:induction false} ApartMiss(group: Mask, raf: Mask, other: Mask)
    requires group & raf == 0
    ensures Agree(other, Complete(group, raf), raf)
  {
  }

  lemma {:induction false} CompleteApart(group: Mask, raf: Mask, other: Mask)
    requires group & other == 0
    ensures Agree(other, Complete(group, raf), raf)
  {
    if group & raf != 0 {
      ApartHit(group, raf, other);
    } else {
      ApartMiss(group, raf, other);
    }
  }

  lemma {:induction false} AgreeTransitive(other: Mask, a: Mask, b: Mask, c: Mask)
    requires Agree(other, a, b) && Agree(other, b, c)
    ensures Agree(other, a, c)
  {
  }

  predicate AllApart(groups: seq<Mask>, other: Mask) {
    forall i :: 0 <= i < |groups| ==> groups[i] & other == 0
  }

  lemma {:induction false} FirstApart(groups: seq<Mask>, other: Mask)
    requires groups != [] && AllApart(groups, other)
    ensures groups[0] & other == 0 && AllApart(groups[1..], other)
  {
  }

  lemma {:induction false} Unfold(groups: seq<Mask>, raf: Mask) returns (one: Mask)
    requires groups != []
    ensures one == Complete(groups[0], raf) && CompleteAll(groups, raf) == CompleteAll(groups[1..], one)
  {
    one := Complete(groups[0], raf);
  }

  /** What is disjoint from the groups is left alone. */
  lemma {:induction false} CompleteAllApart(groups: seq<Mask>, raf: Mask, other: Mask)
    requires AllApart(groups, other)
    ensures Agree(other, CompleteAll(groups, raf), raf)
  {
    if groups != [] {
      FirstApart(groups, other);
      var one := Unfold(groups, raf);
      CompleteApart(groups[0], raf, other);
      CompleteAllApart(groups[1..], one, other);
      AgreeTransitive(other, CompleteAll(groups, raf), one, raf);
    }
  }

  lemma {:induction false} GrowStep(groups: seq<Mask>, raf: Mask) returns (one: Mask)
    requires groups != []
    ensures CompleteAll(groups, raf) == CompleteAll(groups[1..], one)
    ensures Within(raf, one) && Whole(groups[0], one)
  {
    one := Unfold(groups, raf);
    CompleteGrows(groups[0], raf);
    CompleteWhole(groups[0], raf);
  }

  lemma {:induction false} CompleteAllGrows(groups: seq<Mask>, raf: Mask)
    ensures Within(raf, CompleteAll(groups, raf))
  {
    if groups == [] {
      Commutes(raf, raf);
    } else {
      var one := GrowStep(groups, raf);
      CompleteAllGrows(groups[1..], one);
      Transitive(raf, one, CompleteAll(groups[1..], one));
    }
  }

  lemma {:induction false} CompleteAllLeast(groups: seq<Mask>, raf: Mask, other: Mask)
    requires Closed(groups, other) && Within(raf, other)
    ensures Within(CompleteAll(groups, raf), other)
  {
    if groups != [] {
      assert Whole(groups[0], other);
      CompleteLeast(groups[0], raf, other);
      assert Closed(groups[1..], other);
      CompleteAllLeast(groups[1..], Complete(groups[0], raf), other);
    }
  }

  lemma {:induction false} FirstDisjoint(groups: seq<Mask>)
    requires groups != [] && Disjoint(groups)
    ensures AllApart(groups[1..], groups[0]) && Disjoint(groups[1..])
  {
    forall i | 0 <= i < |groups| - 1 ensures groups[1..][i] & groups[0] == 0 {
      assert groups[0] & groups[i + 1] == 0;
      Commutes(groups[0], groups[i + 1]);
    }
  }

  lemma {:induction false} StillWhole(g: Mask, one: Mask, all: Mask)
    requires Whole(g, one) && Agree(g, all, one)
    ensures Whole(g, all)
  {
  }

  lemma {:induction false} CompleteAllCloses(groups: seq<Mask>, raf: Mask)
    requires Disjoint(groups)
    ensures Closed(groups, CompleteAll(groups, raf))
  {
    if groups != [] {
      FirstDisjoint(groups);
      var one := GrowStep(groups, raf);
      var all := CompleteAll(groups[1..], one);
      CompleteAllCloses(groups[1..], one);
      CompleteAllApart(groups[1..], one, groups[0]);
      StillWhole(groups[0], one, all);
      ClosedFrom(groups, all);
    }
  }

  lemma {:induction false} ClosedFrom(groups: seq<Mask>, raf: Mask)
    requires groups != [] && Whole(groups[0], raf) && Closed(groups[1..], raf)
    ensures Closed(groups, raf)
  {
    assert forall i :: 0 < i < |groups| ==> groups[i] == groups[1..][i - 1];
  }

  lemma {:induction false} GroupsDisjoint()
    ensures Disjoint(GROUPS)
  {
  }

  /** The adjusted mask is the least mask around the given one that is closed under
      the groups.  */
  lemma {:induction false} AdjustedIsClosure(raf: Mask, other: Mask)
    ensures Within(raf, Adjusted(raf)) && Closed(GROUPS, Adjusted(raf))
    ensures Closed(GROUPS, other) && Within(raf, other) ==> Within(Adjusted(raf), other)
  {
    GroupsDisjoint();
    CompleteAllGrows(GROUPS, raf);
    CompleteAllCloses(GROUPS, raf);
    if Closed(GROUPS, other) && Within(raf, other) {
      CompleteAllLeast(GROUPS, raf, other);
    }
  }

  lemma {:induction false} ClosedIsFixed(raf: Mask)
    requires Closed(GROUPS, raf)
    ensures Adjusted(raf) == raf
  {
    Commutes(raf, raf);
    AdjustedIsClosure(raf, raf);
    Commutes(raf, Adjusted(raf));
  }

  lemma {:induction false} AdjustedIdempotent(raf: Mask)
    ensures Adjusted(Adjusted(raf)) == Adjusted(raf)
    ensures Adjusted(raf) == raf <==> Closed(GROUPS, raf)
  {
    AdjustedIsClosure(raf, raf);
    ClosedIsFixed(Adjusted(raf));
    if Closed(GROUPS, raf) {
      ClosedIsFixed(raf);
    }
  }

  function Part(g: Mask, raf: Mask): Mask {
    if g & raf != 0 then g else 0
  }

  /** `a` has all of the group's bits if `raf` has one of them, and otherwise none. */
  predicate Completed(g: Mask, raf: Mask, a: Mask) {
    g & a == Part(g, raf)
  }

  lemma {:induction false} OneCompleted(g: Mask, raf: Mask)
    ensures Completed(g, raf, Complete(g, raf))
  {
    if g & raf != 0 { CompleteHit(g, raf); }
  }

  lemma {:induction false} CompletedThen(g: Mask, raf: Mask, one: Mask, all: Mask)
    requires Completed(g, raf, one) && Agree(g, all, one)
    ensures Completed(g, raf, all)
  {
  }

  lemma {:induction false} AgreeThen(g: Mask, raf: Mask, one: Mask, all: Mask)
    requires Agree(g, one, raf) && Completed(g, one, all)
    ensures Completed(g, raf, all)
  {
  }

  lemma {:induction false} FirstCompleted(groups: seq<Mask>, raf: Mask)
    requires groups != [] && Disjoint(groups)
    ensures Completed(groups[0], raf, CompleteAll(groups, raf))
  {
    FirstDisjoint(groups);
    var one := Unfold(groups, raf);
    OneCompleted(groups[0], raf);
    CompleteAllApart(groups[1..], one, groups[0]);
    CompletedThen(groups[0], raf, one, CompleteAll(groups, raf));
  }

  lemma {:induction false} LaterCompleted(groups: seq<Mask>, raf: Mask, i: nat)
    requires 0 < i < |groups| && groups[0] & groups[i] == 0
    requires Completed(groups[i], Complete(groups[0], raf), CompleteAll(groups[1..], Complete(groups[0], raf)))
    ensures Completed(groups[i], raf, CompleteAll(groups, raf))
  {
    var one := Unfold(groups, raf);
    CompleteApart(groups[0], raf, groups[i]);
    AgreeThen(groups[i], raf, one, CompleteAll(groups, raf));
  }

  /** Each of some disjoint groups is completed. */
  lemma {:induction false} GroupCompleted(groups: seq<Mask>, raf: Mask, i: nat)
    requires i < |groups| && Disjoint(groups)
    ensures Completed(groups[i], raf, CompleteAll(groups, raf))
    decreases |groups|
  {
    if i == 0 {
      FirstCompleted(groups, raf);
    } else {
      FirstDisjoint(groups);
      GroupCompleted(groups[1..], Complete(groups[0], raf), i - 1);
      LaterCompleted(groups, raf, i);
    }
  }

  lemma {:induction false} GroupAt(raf: Mask, i: nat, g: Mask)
    requires i < |GROUPS| && g == GROUPS[i]
    ensures Completed(g, raf, Adjusted(raf))
  {
    GroupsDisjoint();
    GroupCompleted(GROUPS, raf, i);
  }

  /** The six groups in numbers: GSM, WCDMA, CDMA, EVDO, LTE and NR are completed. */
  lemma {:induction false} AdjustedBits(raf: Mask)
    ensures Completed(0x0001_0006, raf, Adjusted(raf)) && Completed(0x0000_8E08, raf, Adjusted(raf))
    ensures Completed(0x0000_0070, raf, Adjusted(raf)) && Completed(0x0000_3180, raf, Adjusted(raf))
    ensures Completed(0x0008_4000, raf, Adjusted(raf)) && Completed(0x0010_0000, raf, Adjusted(raf))
  {
    GroupAt(raf, 0, 0x0001_0006);
    GroupAt(raf, 1, 0x0000_8E08);
    GroupAt(raf, 2, 0x0000_0070);
    GroupAt(raf, 3, 0x0000_3180);
    GroupAt(raf, 4, 0x0008_4000);
    GroupAt(raf, 5, 0x0010_0000);
  }

  /** All other bits stay as they are. */
  lemma {:induction false} OtherBits(raf: Mask)
    ensures 0xFFE6_0001 & Adjusted(raf) == 0xFFE6_0001 & raf
  {
    OthersApart();
    CompleteAllApart(GROUPS, raf, 0xFFE6_0001);
  }

  lemma {:induction false} OthersApart()
    ensures AllApart(GROUPS, 0xFFE6_0001)
  {
  }

  // ----- round trips -----

  /** A mask that some mode stands for. */
  predicate HasMode(raf: Mask) {
    exists mode :: 0 <= mode <= LAST_MODE && MaskOf(mode) == raf
  }

  lemma {:induction false} ModeOfMask(mode: int)
    requires 0 <= mode <= LAST_MODE
    ensures ModeOfAdjusted(MaskOf(mode)) == if mode == GSM_UMTS then WCDMA_PREF else mode
  {
  }

  lemma {:induction false} MaskOfNr(raf: Mask)
    ensures 0 <= ModeOfNr(raf) <= LAST_MODE
    ensures ModeOfNr(raf) == WCDMA_PREF || MaskOf(ModeOfNr(raf)) == raf
  {
  }

  lemma {:induction false} MaskOfTd(raf: Mask)
    ensures 0 <= ModeOfTd(raf) <= LAST_MODE
    ensures ModeOfTd(raf) == WCDMA_PREF || MaskOf(ModeOfTd(raf)) == raf
  {
    MaskOfNr(raf);
  }

  lemma {:induction false} MaskOfMode(raf: Mask)
    ensures 0 <= ModeOfAdjusted(raf) <= LAST_MODE
    ensures ModeOfAdjusted(raf) == WCDMA_PREF || MaskOf(ModeOfAdjusted(raf)) == raf
  {
    MaskOfTd(raf);
  }

  lemma {:induction false} MaskOfClosed(mode: int)
    ensures Closed(GROUPS, MaskOf(mode))
  {
  }

  /** Mask to mode to mask gives the adjusted mask if it has a mode, and GSM with
      WCDMA otherwise.  */
  lemma {:induction false} MaskRoundTrip(raf: Mask)
    ensures MaskOf(ModeOf(raf)) == if HasMode(Adjusted(raf)) then Adjusted(raf) else GSM | WCDMA
  {
    var a := Adjusted(raf);
    MaskOfMode(a);
    if HasMode(a) {
      var mode :| 0 <= mode <= LAST_MODE && MaskOf(mode) == a;
      ModeOfMask(mode);
    }
  }

  /** Mode to mask to mode is the identity on the modes 0 to 33 except for the second
      mode that stands for GSM with WCDMA, and on nothing else.  */
  lemma {:induction false} ModeRoundTrip(mode: int)
    ensures ModeOf(MaskOf(mode)) == mode <==> 0 <= mode <= LAST_MODE && mode != GSM_UMTS
  {
    MaskOfClosed(mode);
    ClosedIsFixed(MaskOf(mode));
    MaskOfMode(MaskOf(mode));
    if 0 <= mode <= LAST_MODE {
      ModeOfMask(mode);
    }
  }

  const MASKS: seq<Mask> := [
    0x18E0E, 0x10006, 0x8E08, 0x18E0E, 0x31F0, 0x70, 0x3180, 0x1BFFE, 0x871F0,
    0x9CE0E, 0x9FFFE, 0x84000, 0x8CE08, 0x20000, 0x28E08, 0xA4000, 0x30006, 0xB4006,
    0x38E0E, 0xACE08, 0xBCE0E, 0x3BFFE, 0xBFFFE, 0x100000, 0x184000, 0x1871F0, 0x19CE0E,
    0x19FFFE, 0x18CE08, 0x1A4000, 0x1B4006, 0x1ACE08, 0x1BCE0E, 0x1BFFFE]

  lemma {:induction false} LowTable(mode: int)
    requires 0 <= mode < 9
    ensures MaskOf(mode) == MASKS[mode]
  {
  }

  lemma {:induction false} TdTable(mode: int)
    requires 9 <= mode < 18
    ensures MaskOf(mode) == MASKS[mode]
  {
  }

  lemma {:induction false} MixedTable(mode: int)
    requires 18 <= mode < 27
    ensures MaskOf(mode) == MASKS[mode]
  {
  }

  lemma {:induction false} NrTable(mode: int)
    requires 27 <= mode < 34
    ensures MaskOf(mode) == MASKS[mode]
  {
  }

  /** The modes 0 to 33 in numbers; every other one is unknown. */
  lemma {:induction false} MaskTable(mode: int)
    ensures MaskOf(mode) == if 0 <= mode <= 33 then MASKS[mode] else 1
  {
    if 0 <= mode < 9 { LowTable(mode); }
    else if 9 <= mode < 18 { TdTable(mode); }
    else if 18 <= mode < 27 { MixedTable(mode); }
    else if 27 <= mode < 34 { NrTable(mode); }
  }

  /** A mask without a mode becomes mode 0. */
  lemma {:induction false} NoModeIsZero(raf: Mask)
    requires !HasMode(Adjusted(raf))
    ensures ModeOf(raf) == 0
  {
    MaskOfMode(Adjusted(raf));
  }
}
