/** One SIM's row of PDP context slots and holder counts, and the slot
    operations of the allocator, as functions on values.  */
module PdpTable {
  import opened Sims

  const UNUSABLE_CID := 0

  datatype PdpState = Idle | Busy

  /** `cid` is the modem's context id (index + 1), -1 when none is assigned and
      UNUSABLE_CID while a setup has given up on the slot. `secondary` is the
      cid of the other half of a fallback pair, or -1.  */
  datatype Pdp = Pdp(cid: int, secondary: int, isPrimary: bool, state: PdpState)

  const FREE := Pdp(-1, -1, false, Idle)

  datatype TableRecord = Table(slots: seq<Pdp>, holders: seq<int>)

  type Table = t: TableRecord | |t.slots| == MAX_PDP && |t.holders| == MAX_PDP
    witness Table(seq(MAX_PDP, _ => FREE), seq(MAX_PDP, _ => 0))

  /** What one query of the modem's own active contexts returned. `applies` says
      that the answer concerns this SIM, `apnMatches[i]` that context i + 1 has
      the requested APN and protocol.  */
  datatype PdnRecord = PdnInfo(applies: bool, active: int, nCid: seq<int>, apnMatches: seq<bool>)

  type PdnInfo = p: PdnRecord | |p.nCid| == MAX_PDP && |p.apnMatches| == MAX_PDP
    witness PdnInfo(false, 0, seq(MAX_PDP, _ => -1), seq(MAX_PDP, _ => false))

  predicate Index(i: int) {
    0 <= i < MAX_PDP
  }

  // ----- slot operations -----

  /** The modem already uses context i + 1 itself. */
  predicate Reserved(p: PdnInfo, i: int)
    requires Index(i)
  {
    p.applies && p.active > 0 && p.nCid[i] == i + 1
  }

  predicate Acquirable(p: PdnInfo, t: Table, i: int)
    requires Index(i)
  {
    !Reserved(p, i) && t.slots[i].state == Idle && t.slots[i].cid == -1
  }

  function Take(t: Table, i: int): Table
    requires Index(i)
  {
    t.(slots := t.slots[i := t.slots[i].(state := Busy)])
  }

  /** Index of the first active context whose APN matches the request, or -1. */
  function Matched(p: PdnInfo, from: nat := 0): (i: int)
    requires from <= MAX_PDP
    decreases MAX_PDP - from
    ensures i == -1 || from <= i < MAX_PDP
  {
    if from == MAX_PDP || p.active <= 0 then -1
    else if p.nCid[from] == from + 1 && p.apnMatches[from] then from
    else Matched(p, from + 1)
  }

  /** The lowest index at or above `from` of an active context that has its own number
      and the APN, or -1 if there is none.  */
  lemma {:induction false} MatchedIsFirst(p: PdnInfo, from: nat)
    requires from <= MAX_PDP
    ensures var i := Matched(p, from);
      && (i >= 0 ==> p.active > 0 && p.nCid[i] == i + 1 && p.apnMatches[i])
      && (forall k :: from <= k < (if i < 0 then MAX_PDP else i) ==>
            p.active <= 0 || p.nCid[k] != k + 1 || !p.apnMatches[k])
    decreases MAX_PDP - from
  {
    if from < MAX_PDP { MatchedIsFirst(p, from + 1); }
  }

  /** Lowest acquirable index at or above `from`, or -1. */
  function FirstFree(p: PdnInfo, t: Table, from: nat := 0): (i: int)
    requires from <= MAX_PDP
    decreases MAX_PDP - from
    ensures i == -1 ==> forall j :: from <= j < MAX_PDP ==> !Acquirable(p, t, j)
    ensures i != -1 ==> from <= i < MAX_PDP && Acquirable(p, t, i)
    ensures forall j :: from <= j < i ==> !Acquirable(p, t, j)
  {
    if from == MAX_PDP then -1
    else if Acquirable(p, t, from) then from
    else FirstFree(p, t, from + 1)
  }

  function Get(p: PdnInfo, t: Table): (Table, int) {
    var i := FirstFree(p, t);
    if i < 0 then (t, -1) else (Take(t, i), i)
  }

  function GetByIndex(t: Table, i: int): (Table, int) {
    if Index(i) && t.slots[i].state == Idle && t.slots[i].cid != UNUSABLE_CID
    then (Take(t, i), i)
    else (t, -1)
  }

  /** Release a slot, unpair its partner and forget its holders. */
  function Put(t: Table, i: int): Table {
    if !Index(i) then t
    else
      var other := t.slots[i].secondary;
      var slots := if 0 < other <= MAX_PDP
                   then t.slots[other - 1 := t.slots[other - 1].(secondary := -1)]
                   else t.slots;
      Table(slots[i := FREE], t.holders[i := 0])
  }

  function WithCid(t: Table, i: int, cid: int): Table
    requires Index(i)
  {
    t.(slots := t.slots[i := t.slots[i].(cid := cid)])
  }

  function MarkUnusable(t: Table, i: int): Table
    requires Index(i)
  {
    if t.slots[i].cid == -1 then WithCid(t, i, UNUSABLE_CID) else t
  }

  /** updatePDPCid with its three meanings of `state`. */
  function UpdateCid(t: Table, cid: int, state: int): Table {
    if !(0 < cid <= MAX_PDP) then t
    else if state == 1 then WithCid(t, cid - 1, cid)
    else if state == 0 then WithCid(t, cid - 1, -1)
    else if state == -1 then MarkUnusable(t, cid - 1)
    else t
  }

  function Usable(s: Pdp): Pdp {
    if s.cid == UNUSABLE_CID then s.(cid := -1) else s
  }

  function PutUnusable(t: Table): Table {
    t.(slots := seq(MAX_PDP, i requires 0 <= i < MAX_PDP => Usable(t.slots[i])))
  }

  function Pair(t: Table, primary: int, secondary: int): Table {
    if !Index(primary) || !Index(secondary) then t
    else
      var s := t.slots[primary := Pdp(primary + 1, secondary + 1, true, t.slots[primary].state)];
      t.(slots := s[secondary := Pdp(secondary + 1, primary + 1, false, s[secondary].state)])
  }

  function Partner(t: Table, i: int): int {
    if Index(i) then t.slots[i].secondary else -1
  }

  predicate IsBusy(t: Table, i: int) {
    Index(i) && t.slots[i].state == Busy
  }

  predicate AnyBusy(t: Table) {
    exists i :: 0 <= i < MAX_PDP && t.slots[i].state == Busy
  }

  function BusySet(t: Table): set<int> {
    set i | 0 <= i < MAX_PDP && t.slots[i].state == Busy
  }

  // ----- what every run keeps -----

  /** Slot i is unpaired, or it and its partner name each other, are two
      different BUSY slots, and exactly one of them is primary.  */
  ghost predicate PairedAt(t: Table, i: int)
    requires Index(i)
  {
    var p := t.slots[i].secondary - 1;
    t.slots[i].secondary == -1 ||
    (&& Index(p) && p != i
     && t.slots[p].secondary == i + 1
     && t.slots[i].state == Busy && t.slots[p].state == Busy
     && t.slots[i].isPrimary != t.slots[p].isPrimary)
  }

  /** The fallback pairing is a symmetric, irreflexive partial involution between
      BUSY slots, with exactly one primary end.  */
  ghost predicate Paired(t: Table) {
    forall i :: 0 <= i < MAX_PDP ==> PairedAt(t, i)
  }

  /** Counts are never negative and only BUSY slots have holders. */
  ghost predicate Held(t: Table) {
    forall i :: 0 <= i < MAX_PDP ==>
      t.holders[i] >= 0 && (t.holders[i] > 0 ==> t.slots[i].state == Busy)
  }

  /** What every event keeps, as long as no network-reject fallback goes up. */
  ghost predicate Coherent(t: Table) {
    Paired(t) && Held(t)
  }

  /** Every slot that is not BUSY is blank. */
  ghost predicate IdleBlank(t: Table) {
    forall i :: 0 <= i < MAX_PDP && t.slots[i].state == Idle ==> t.slots[i] == FREE
  }

  ghost predicate NoneUnusable(t: Table) {
    forall i :: 0 <= i < MAX_PDP ==> t.slots[i].cid != UNUSABLE_CID
  }

  /** Idle slots that a setup may still try; the setup loop's measure. */
  predicate Candidate(s: Pdp) {
    s.state == Idle && s.cid != UNUSABLE_CID
  }

  function Candidates(s: seq<Pdp>): (n: nat)
    ensures n <= |s|
  {
    if s == [] then 0 else Candidates(s[1..]) + if Candidate(s[0]) then 1 else 0
  }

  lemma {:induction false} CandidatesUpdate(s: seq<Pdp>, i: nat, v: Pdp)
    requires i < |s|
    ensures Candidates(s[i := v]) + (if Candidate(s[i]) then 1 else 0)
         == Candidates(s) + (if Candidate(v) then 1 else 0)
  {
    if i == 0 {
      assert s[0 := v][1..] == s[1..];
    } else {
      CandidatesUpdate(s[1..], i - 1, v);
      assert s[i := v][1..] == s[1..][i - 1 := v];
    }
  }

  /** Taking a candidate, or releasing what was taken, moves the measure by one. */
  lemma {:induction false} CandidatesTake(t: Table, i: int)
    requires Index(i) && Candidate(t.slots[i])
    ensures Candidates(Take(t, i).slots) == Candidates(t.slots) - 1
  {
    CandidatesUpdate(t.slots, i, t.slots[i].(state := Busy));
  }

  lemma {:induction false} CandidatesPut(t: Table, i: int)
    requires Index(i) && t.slots[i].state == Busy
    ensures Candidates(Put(t, i).slots) == Candidates(t.slots) + 1
  {
    var other := t.slots[i].secondary;
    var s := t.slots;
    if 0 < other <= MAX_PDP {
      CandidatesUpdate(s, other - 1, s[other - 1].(secondary := -1));
      s := s[other - 1 := s[other - 1].(secondary := -1)];
    }
    CandidatesUpdate(s, i, FREE);
  }

  lemma {:induction false} CandidatesMark(t: Table, i: int)
    requires Index(i) && t.slots[i] == FREE
    ensures Candidates(MarkUnusable(t, i).slots) == Candidates(t.slots) - 1
  {
    CandidatesUpdate(t.slots, i, t.slots[i].(cid := UNUSABLE_CID));
  }

  // ----- preservation, one operation at a time -----

  lemma {:induction false} TakeKeeps(t: Table, i: int)
    requires Index(i) && t.slots[i].state == Idle
    ensures Paired(t) ==> Paired(Take(t, i)) && Take(t, i).slots[i].secondary == -1
    ensures Held(t) ==> Held(Take(t, i))
    ensures IdleBlank(t) ==> IdleBlank(Take(t, i))
    ensures BusySet(Take(t, i)) == BusySet(t) + {i}
  {
    if Paired(t) {
      assert PairedAt(t, i);
      forall j | 0 <= j < MAX_PDP ensures PairedAt(Take(t, i), j) {
        assert PairedAt(t, j);
      }
    }
  }

  /** Releasing one slot keeps the pairing: its partner, if any, becomes unpaired. */
  lemma {:induction false} PutKeepsPaired(t: Table, i: int)
    requires Paired(t)
    ensures Paired(Put(t, i))
  {
    if Index(i) {
      assert PairedAt(t, i);
      forall j | 0 <= j < MAX_PDP ensures PairedAt(Put(t, i), j) {
        assert PairedAt(t, j);
      }
    }
  }

  lemma {:induction false} PutKeeps(t: Table, i: int)
    ensures Held(t) ==> Held(Put(t, i))
    ensures IdleBlank(t) ==> IdleBlank(Put(t, i))
    ensures BusySet(Put(t, i)) == BusySet(t) - {i}
  {
  }

  /** Two tables that agree on everything the pairing and the counts look at. */
  ghost predicate SameButCids(t: Table, r: Table) {
    && r.holders == t.holders
    && forall j :: 0 <= j < MAX_PDP ==> r.slots[j] == t.slots[j].(cid := r.slots[j].cid)
  }

  lemma {:induction false} CidsDoNotMatter(t: Table, r: Table)
    requires SameButCids(t, r)
    ensures Paired(t) ==> Paired(r)
    ensures Held(t) ==> Held(r)
    ensures BusySet(r) == BusySet(t)
  {
    if Paired(t) {
      forall j | 0 <= j < MAX_PDP ensures PairedAt(r, j) {
        assert PairedAt(t, j);
      }
    }
  }

  lemma {:induction false} PutUnusableBlank(t: Table)
    ensures NoneUnusable(PutUnusable(t))
    ensures NoneUnusable(t) ==> PutUnusable(t) == t
  {
    if NoneUnusable(t) {
      assert PutUnusable(t).slots == t.slots;
    }
  }

  /** Pairing two unpaired BUSY slots keeps the involution. */
  lemma {:induction false} PairKeeps(t: Table, primary: int, secondary: int)
    requires IsBusy(t, primary) && IsBusy(t, secondary) && primary != secondary
    requires t.slots[primary].secondary == -1 && t.slots[secondary].secondary == -1
    ensures Paired(t) ==> Paired(Pair(t, primary, secondary))
    ensures BusySet(Pair(t, primary, secondary)) == BusySet(t)
  {
    if Paired(t) {
      forall j | 0 <= j < MAX_PDP ensures PairedAt(Pair(t, primary, secondary), j) {
        assert PairedAt(t, j);
      }
    }
  }
}
