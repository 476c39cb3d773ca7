/** The table that gives each active data context a network interface. */
module EthTable {
  import opened Sims
  import opened Decimal

  const MAX_ETH := 8

  datatype Eth = Eth(busy: bool, socketId: int, cid: int)

  const IDLE := Eth(false, -1, -1)

  type Rows = s: seq<Eth> | |s| == MAX_ETH witness seq(MAX_ETH, _ => IDLE)

  predicate Owns(e: Eth, sim: int, cid: int) {
    e.busy && e.socketId == sim && e.cid == cid
  }

  /** Lowest index that (sim, cid) owns, or -1. */
  function IndexOf(s: Rows, sim: int, cid: int, from: nat := 0): (i: int)
    requires from <= MAX_ETH
    decreases MAX_ETH - from
    ensures i == -1 ==> forall j :: from <= j < MAX_ETH ==> !Owns(s[j], sim, cid)
    ensures i != -1 ==> from <= i < MAX_ETH && Owns(s[i], sim, cid)
  {
    if from == MAX_ETH then -1
    else if Owns(s[from], sim, cid) then from
    else IndexOf(s, sim, cid, from + 1)
  }

  function FirstIdle(s: Rows, from: nat := 0): (i: int)
    requires from <= MAX_ETH
    decreases MAX_ETH - from
    ensures i == -1 ==> forall j :: from <= j < MAX_ETH ==> s[j].busy
    ensures i != -1 ==> from <= i < MAX_ETH && !s[i].busy
    ensures forall j :: from <= j < i ==> s[j].busy
  {
    if from == MAX_ETH then -1 else if !s[from].busy then from else FirstIdle(s, from + 1)
  }

  function Set(s: Rows, sim: int, cid: int): Rows {
    if IndexOf(s, sim, cid) >= 0 || FirstIdle(s) < 0 then s
    else s[FirstIdle(s) := Eth(true, sim, cid)]
  }

  function Clean(s: Rows, sim: int, cid: int): Rows {
    var i := IndexOf(s, sim, cid);
    if i < 0 || cid < 0 || cid >= MAX_PDP then s else s[i := IDLE]
  }

  function CidAt(s: Rows, sim: int, i: int): int {
    if 0 <= i < MAX_ETH && s[i].socketId == sim then s[i].cid else -1
  }

  function Name(s: Rows, prefix: string, sim: int, cid: int): string {
    prefix + Print(IndexOf(s, sim, cid))
  }

  function CidOfName(s: Rows, prefix: string, sim: int, name: string): int {
    if |name| > |prefix| then CidAt(s, sim, Atoi(name[|prefix|..])) else -1
  }

  // ----- the table is a partial bijection -----

  /** IDLE rows are blank, BUSY rows belong to a SIM, and no (SIM, cid) owns two rows. */
  ghost predicate Bijective(s: Rows) {
    && (forall i :: 0 <= i < MAX_ETH ==> if s[i].busy then 0 <= s[i].socketId < SIM_COUNT else s[i] == IDLE)
    && (forall i, j :: 0 <= i < j < MAX_ETH && s[i].busy && s[j].busy ==> s[i] != s[j])
  }

  /** In a bijective table every owner has one row, which IndexOf finds. */
  lemma {:induction false} OwnerIsUnique(s: Rows, i: int, sim: int, cid: int)
    requires Bijective(s) && 0 <= i < MAX_ETH && Owns(s[i], sim, cid)
    ensures IndexOf(s, sim, cid) == i
  {
    var j := IndexOf(s, sim, cid);
    assert s[i] == s[j];
  }

  /** Giving an interface: the owner that has none gets the lowest idle row, if
      there is one; nobody else's interface changes.  */
  lemma {:induction false} SetRefines(s: Rows, sim: int, cid: int, m: int, c: int)
    requires Bijective(s) && 0 <= sim < SIM_COUNT
    ensures Bijective(Set(s, sim, cid))
    ensures IndexOf(Set(s, sim, cid), m, c)
         == if m == sim && c == cid && IndexOf(s, m, c) < 0 then FirstIdle(s) else IndexOf(s, m, c)
  {
    var r := Set(s, sim, cid);
    assert Bijective(r);
    var i := if m == sim && c == cid && IndexOf(s, m, c) < 0 then FirstIdle(s) else IndexOf(s, m, c);
    if i >= 0 { OwnerIsUnique(r, i, m, c); }
  }

  /** Cleaning takes away exactly the named owner's interface, but never that of
      cid 6 or above.  */
  lemma {:induction false} CleanRefines(s: Rows, sim: int, cid: int, m: int, c: int)
    requires Bijective(s)
    ensures Bijective(Clean(s, sim, cid))
    ensures IndexOf(Clean(s, sim, cid), m, c)
         == if m == sim && c == cid && 0 <= cid < MAX_PDP then -1 else IndexOf(s, m, c)
  {
    var r := Clean(s, sim, cid);
    assert Bijective(r);
    if IndexOf(r, m, c) >= 0 {
      OwnerIsUnique(s, IndexOf(r, m, c), m, c);
    } else if IndexOf(s, m, c) >= 0 && IndexOf(s, sim, cid) >= 0 {
      assert !Owns(r[IndexOf(s, m, c)], m, c);
    }
  }

  /** There are eight rows: an owner without one gets one exactly if one of the eight is
      idle, and loses it again exactly if its cid is 0 to 5.  */
  lemma {:induction false} EightRows(s: Rows, sim: int, cid: int)
    requires Bijective(s) && (sim == 0 || sim == 1) && IndexOf(s, sim, cid) < 0
    ensures IndexOf(Set(s, sim, cid), sim, cid) >= 0 <==> exists k :: 0 <= k < 8 && !s[k].busy
    ensures IndexOf(Clean(Set(s, sim, cid), sim, cid), sim, cid) >= 0
       <==> (exists k :: 0 <= k < 8 && !s[k].busy) && !(0 <= cid < 6)
  {
    SetRefines(s, sim, cid, sim, cid);
    CleanRefines(Set(s, sim, cid), sim, cid, sim, cid);
    if FirstIdle(s) >= 0 { assert !s[FirstIdle(s)].busy; }
  }

  datatype Use = SetUse(sim: int, cid: int) | CleanUse(sim: int, cid: int)

  function Run(s: Rows, us: seq<Use>): Rows
    decreases |us|
  {
    if us == [] then s
    else Run(if us[0].SetUse? then Set(s, us[0].sim, us[0].cid) else Clean(s, us[0].sim, us[0].cid), us[1..])
  }

  /** Every run of sets and cleans keeps the table a partial bijection. */
  lemma {:induction false} RunKeepsBijective(s: Rows, us: seq<Use>)
    requires Bijective(s) && forall u <- us :: 0 <= u.sim < SIM_COUNT
    ensures Bijective(Run(s, us))
    decreases |us|
  {
    if us != [] {
      SetRefines(s, us[0].sim, us[0].cid, 0, 0);
      CleanRefines(s, us[0].sim, us[0].cid, 0, 0);
      RunKeepsBijective(if us[0].SetUse? then Set(s, us[0].sim, us[0].cid) else Clean(s, us[0].sim, us[0].cid), us[1..]);
    }
  }

  // ----- names -----

  /** Reading back an interface name gives the context that owns it, and -1 for a
      context that has no interface, for every name prefix.  */
  lemma {:induction false} NameRoundTrip(s: Rows, prefix: string, sim: int, cid: int)
    ensures CidOfName(s, prefix, sim, Name(s, prefix, sim, cid))
         == if IndexOf(s, sim, cid) >= 0 then cid else -1
  {
    var i := IndexOf(s, sim, cid);
    AtoiPrint(i, []);
    assert Print(i) + [] == Print(i);
    assert Name(s, prefix, sim, cid)[|prefix|..] == Print(i);
  }

  /** On the other SIM the name of an interface means nothing. */
  lemma {:induction false} NameOfOtherSim(s: Rows, prefix: string, sim: int, cid: int, other: int)
    requires other != sim && IndexOf(s, sim, cid) >= 0
    ensures CidOfName(s, prefix, other, Name(s, prefix, sim, cid)) == -1
  {
    var i := IndexOf(s, sim, cid);
    AtoiPrint(i, []);
    assert Print(i) + [] == Print(i);
    assert Name(s, prefix, sim, cid)[|prefix|..] == Print(i);
  }

  // ----- the table updated in place -----

  /** Only (sim, cid) may have a row in `r` that it had not in `s`: the lowest idle one. */
  ghost predicate GivesRow(s: Rows, sim: int, cid: int, r: Rows) {
    forall m, c ::
      IndexOf(r, m, c) == (if m == sim && c == cid && IndexOf(s, m, c) < 0 then FirstIdle(s) else IndexOf(s, m, c))
  }

  /** Only (sim, cid) may have lost its row, and only for cids up to 5. */
  ghost predicate TakesRow(s: Rows, sim: int, cid: int, r: Rows) {
    forall m, c ::
      IndexOf(r, m, c) == (if m == sim && c == cid && 0 <= cid < MAX_PDP then -1 else IndexOf(s, m, c))
  }

  lemma {:induction false} SetGives(s: Rows, sim: Sim, cid: int)
    requires Bijective(s)
    ensures Bijective(Set(s, sim, cid)) && GivesRow(s, sim, cid, Set(s, sim, cid))
  {
    SetRefines(s, sim, cid, sim, cid);
    forall m, c ensures IndexOf(Set(s, sim, cid), m, c)
      == (if m == sim && c == cid && IndexOf(s, m, c) < 0 then FirstIdle(s) else IndexOf(s, m, c))
    {
      SetRefines(s, sim, cid, m, c);
    }
  }

  lemma {:induction false} CleanTakes(s: Rows, sim: int, cid: int)
    requires Bijective(s)
    ensures Bijective(Clean(s, sim, cid)) && TakesRow(s, sim, cid, Clean(s, sim, cid))
  {
    CleanRefines(s, sim, cid, sim, cid);
    forall m, c ensures IndexOf(Clean(s, sim, cid), m, c)
      == (if m == sim && c == cid && 0 <= cid < MAX_PDP then -1 else IndexOf(s, m, c))
    {
      CleanRefines(s, sim, cid, m, c);
    }
  }

  class Interfaces {
    const rows: array<Eth>

    /** The table is a partial bijection between BUSY rows and their owners. */
    ghost predicate Valid()
      reads rows
    {
      rows.Length == MAX_ETH && Bijective(rows[..])
    }

    constructor ()
      ensures Valid() && fresh(rows)
      ensures forall sim, cid :: IndexOf(rows[..], sim, cid) == -1
    {
      rows := new Eth[MAX_ETH](_ => IDLE);
    }

    method GetEthIndexBySocketId(sim: int, cid: int) returns (ret: int)
      requires Valid()
      ensures ret == IndexOf(rows[..], sim, cid)
    {
      for i := 0 to MAX_ETH
        invariant IndexOf(rows[..], sim, cid) == IndexOf(rows[..], sim, cid, i)
      {
        if rows[i].socketId == sim && rows[i].cid == cid && rows[i].busy {
          return i;
        }
      }
      ret := -1;
    }

    /** The owner gets the lowest idle row if it has none; others keep theirs. */
    method SetEth(sim: Sim, cid: int)
      requires Valid()
      modifies rows
      ensures Valid() && rows[..] == Set(old(rows[..]), sim, cid)
      ensures GivesRow(old(rows[..]), sim, cid, rows[..])
    {
      SetGives(rows[..], sim, cid);
      var ethIndex := GetEthIndexBySocketId(sim, cid);
      if ethIndex >= 0 && ethIndex < MAX_ETH {
        return;
      }
      for i := 0 to MAX_ETH
        invariant rows[..] == old(rows[..])
        invariant FirstIdle(rows[..]) == FirstIdle(rows[..], i)
      {
        if !rows[i].busy {
          rows[i] := Eth(true, sim, cid);
          return;
        }
      }
    }

    /** Only the named owner loses its row, and never that of cid 6. */
    method CleanEth(sim: int, cid: int)
      requires Valid()
      modifies rows
      ensures Valid() && rows[..] == Clean(old(rows[..]), sim, cid)
      ensures TakesRow(old(rows[..]), sim, cid, rows[..])
    {
      CleanTakes(rows[..], sim, cid);
      var ethIndex := GetEthIndexBySocketId(sim, cid);
      if ethIndex < 0 || ethIndex >= MAX_ETH || cid < 0 || cid >= MAX_PDP {
        return;
      }
      rows[ethIndex] := IDLE;
    }

    method GetEthNameByCid(prefix: string, sim: int, cid: int) returns (name: string)
      requires Valid()
      ensures name == Name(rows[..], prefix, sim, cid)
      ensures CidOfName(rows[..], prefix, sim, name) == if IndexOf(rows[..], sim, cid) >= 0 then cid else -1
    {
      NameRoundTrip(rows[..], prefix, sim, cid);
      var ethIndex := GetEthIndexBySocketId(sim, cid);
      name := prefix + Print(ethIndex);
    }

    method GetCidByEthName(prefix: string, sim: int, name: string) returns (cid: int)
      requires Valid()
      ensures cid == CidOfName(rows[..], prefix, sim, name)
      ensures forall c :: name == Name(rows[..], prefix, sim, c) ==>
        cid == if IndexOf(rows[..], sim, c) >= 0 then c else -1
    {
      forall c | name == Name(rows[..], prefix, sim, c)
        ensures CidOfName(rows[..], prefix, sim, name) == if IndexOf(rows[..], sim, c) >= 0 then c else -1
      {
        NameRoundTrip(rows[..], prefix, sim, c);
      }
      cid := -1;
      if |name| > |prefix| {
        var ethIndex := Atoi(name[|prefix|..]);
        if ethIndex >= 0 && ethIndex < MAX_ETH && rows[ethIndex].socketId == sim {
          cid := rows[ethIndex].cid;
        }
      }
    }
  }
}
