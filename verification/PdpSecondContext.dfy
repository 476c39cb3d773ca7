/** Which slots a setup brings up, and when a second context joins the first, in terms
    of the modem's last answers.  */
module PdpSecondContext {
  import opened Sims
  import opened PdpTable
  import opened PdpSetup
  import opened PdpOutcome

  // ----- which slots -----

  /** Slot k can be had: IDLE, without an id, and not one the modem uses itself. */
  ghost predicate Open(p: PdnInfo, t: Table, k: int) {
    && 0 <= k < 6
    && t.slots[k].state == Idle && t.slots[k].cid == -1
    && !(p.applies && p.active > 0 && p.nCid[k] == k + 1)
  }

  /** j is the lowest such slot other than `taken`, or -1 if there is none. */
  ghost predicate LowestOpen(p: PdnInfo, t: Table, taken: int, j: int) {
    && (j == -1 || (Open(p, t, j) && j != taken))
    && forall k :: 0 <= k < (if j == -1 then 6 else j) ==> k == taken || !Open(p, t, k)
  }

  /** The modem's active context k + 1 is one for the requested APN. */
  ghost predicate Matches(p: PdnInfo, k: int) {
    0 <= k < 6 && p.active > 0 && p.nCid[k] == k + 1 && p.apnMatches[k]
  }

  /** The slot of a setup: that of the first such context, unless it is BUSY or has
      been given up; then the lowest open one.  */
  ghost predicate Chosen(p: PdnInfo, t: Table, i: int) {
    if exists m :: Preferred(p, t, m) then Preferred(p, t, i) else LowestOpen(p, t, -1, i)
  }

  ghost predicate Preferred(p: PdnInfo, t: Table, m: int) {
    && Matches(p, m) && (forall k :: 0 <= k < m ==> !Matches(p, k))
    && t.slots[m].state == Idle && t.slots[m].cid != 0
  }

  lemma {:induction false} GetIsLowest(p: PdnInfo, t: Table)
    ensures LowestOpen(p, t, -1, FirstFree(p, t))
  {
    forall k | 0 <= k < 6 ensures Open(p, t, k) == Acquirable(p, t, k) { }
  }

  lemma {:induction false} AcquireIsChosen(t: Table, p: PdnInfo)
    ensures Chosen(p, t, Acquire(t, p).1)
  {
    GetIsLowest(p, t);
    MatchedIsFirst(p, 0);
    var m := Matched(p);
    if m >= 0 {
      assert Matches(p, m);
      assert Preferred(p, t, m) <==> t.slots[m].state == Idle && t.slots[m].cid != 0;
    }
  }

  // ----- what comes up -----

  /** A table like `t0`, with one more holder on slot i, which is up; and slot j, if
      there is one, paired to it, up by itself, or blank.  */
  ghost predicate CameUp(t0: Table, t: Table, i: int, j: int, paired: bool, both: bool) {
    && 0 <= i < 6 && -1 <= j < 6 && i != j && (paired || both ==> j >= 0)
    && t.slots[i] == (if paired then Pdp(i + 1, j + 1, true, Busy) else Pdp(i + 1, -1, false, Busy))
    && (j >= 0 ==> t.slots[j] == if paired then Pdp(j + 1, i + 1, false, Busy)
                                 else if both then Pdp(j + 1, -1, false, Busy)
                                 else Pdp(-1, -1, false, Idle))
    && (forall k :: 0 <= k < 6 && k != i && k != j ==> t.slots[k] == t0.slots[k])
    && t.holders == t0.holders[i := t0.holders[i] + 1]
  }

  /** What the last answers `r` make of slot i and of the first other open slot j: a
      pair, if IPv4v6 was asked for, the network wants the other IP version by itself
      and the second activation works with both; two contexts, if two were asked for
      and the second activation works; otherwise one.  */
  ghost predicate UpAs(t0: Table, t1: Table, t: Table, ty: PdpType, r: Reply, i: int, j: int) {
    var works := !r.second.contextRejected && r.second.data == DataOk;
    && !r.first.contextRejected && r.first.data == DataOk
    && Chosen(r.pdn, t1, i) && LowestOpen(r.pdn, t1, i, j)
    && CameUp(t0, t, i, j,
              j >= 0 && ty == IPV4V6 && r.wantsOtherIp && works && r.second.dualStack,
              j >= 0 && ty == IPV4_AND_IPV6 && works)
  }

  lemma {:induction false} SecondSlot(t: Table, ty: PdpType, i: int, r: Reply) returns (j: int)
    requires Index(i) && t.slots[i] == Pdp(i + 1, -1, false, Busy)
    requires forall k :: 0 <= k < 6 && Open(r.pdn, t, k) ==> t.slots[k] == FREE && t.holders[k] == 0
    ensures LowestOpen(r.pdn, t, i, j)
    ensures var works := !r.second.contextRejected && r.second.data == DataOk;
      CameUp(t, Hold(CheckFallBack(t, ty, i, r), i), i, j,
             j >= 0 && ty == IPV4V6 && r.wantsOtherIp && works && r.second.dualStack,
             j >= 0 && ty == IPV4_AND_IPV6 && works)
  {
    GetIsLowest(r.pdn, t);
    j := FirstFree(r.pdn, t);
    if j >= 0 {
      assert Open(r.pdn, t, j);
      SecondAnswer(t, ty, i, j, r);
    }
  }

  lemma {:induction false} SecondAnswer(t: Table, ty: PdpType, i: int, j: int, r: Reply)
    requires Index(i) && t.slots[i] == Pdp(i + 1, -1, false, Busy)
    requires Index(j) && t.slots[j] == FREE && t.holders[j] == 0 && Get(r.pdn, t) == (Take(t, j), j)
    ensures var works := !r.second.contextRejected && r.second.data == DataOk;
      CameUp(t, Hold(CheckFallBack(t, ty, i, r), i), i, j,
             ty == IPV4V6 && r.wantsOtherIp && works && r.second.dualStack,
             ty == IPV4_AND_IPV6 && works)
  {
    BlankFailure(t, j);
  }

  function WithFirst(t: Table, i: int): Table
    requires Index(i)
  {
    t.(slots := t.slots[i := Pdp(i + 1, -1, false, Busy)])
  }

  /** The first activation of the last pass of a setup that comes up. */
  lemma {:induction false} FirstIsUp(t: Table, q: Request, r: Reply, retries: nat, delays: nat)
    requires var p := Attempt(t, q, r, retries, delays); p.Done? && !p.byFallback
    ensures var p := Attempt(t, q, r, retries, delays); var (t1, i) := Acquire(t, r.pdn);
      && !r.first.contextRejected && r.first.data == DataOk
      && Index(i) && p.index == i && p.t == CheckFallBack(UpdateCid(t1, i + 1, 1), q.pdpType, i, r)
  {
  }

  /** The last pass of a setup that comes up. */
  lemma {:induction false} LastPass(t0: Table, t: Table, q: Request, r: Reply, retries: nat, delays: nat) returns (j: int)
    requires AtRest(t0) && Scratch(t0, t)
    requires var p := Attempt(t, q, r, retries, delays); p.Done? && !p.byFallback
    ensures var p := Attempt(t, q, r, retries, delays);
      UpAs(t0, t, Hold(PutUnusable(p.t), p.index), q.pdpType, r, p.index, j)
  {
    FirstIsUp(t, q, r, retries, delays);
    AcquireTakesCandidate(t, r.pdn);
    AcquireIsChosen(t, r.pdn);
    var i := Acquire(t, r.pdn).1;
    assert ScratchAt(t0.slots[i], t.slots[i]);
    assert UpdateCid(Take(t, i), i + 1, 1) == WithFirst(t, i);
    j := AroundSecond(t0, t, q.pdpType, r, i);
  }

  lemma {:induction false} AroundSecond(t0: Table, t: Table, ty: PdpType, r: Reply, i: int) returns (j: int)
    requires AtRest(t0) && Scratch(t0, t)
    requires !r.first.contextRejected && r.first.data == DataOk
    requires Chosen(r.pdn, t, i) && Index(i) && t.slots[i] == FREE
    ensures UpAs(t0, t, Hold(PutUnusable(CheckFallBack(WithFirst(t, i), ty, i, r)), i), ty, r, i, j)
  {
    j := SecondSlot(WithFirst(t, i), ty, i, r);
    StillOpen(r.pdn, t, WithFirst(t, i), i);
    var works := !r.second.contextRejected && r.second.data == DataOk;
    Unmarked(t0, t, WithFirst(t, i), CheckFallBack(WithFirst(t, i), ty, i, r), i, j,
             j >= 0 && ty == IPV4V6 && r.wantsOtherIp && works && r.second.dualStack,
             j >= 0 && ty == IPV4_AND_IPV6 && works);
  }

  lemma {:induction false} Unmarked(t0: Table, t: Table, t2: Table, t3: Table, i: int, j: int, paired: bool, both: bool)
    requires AtRest(t0) && Scratch(t0, t)
    requires Index(i) && t2 == t.(slots := t.slots[i := t2.slots[i]])
    requires CameUp(t2, Hold(t3, i), i, j, paired, both)
    ensures CameUp(t0, Hold(PutUnusable(t3), i), i, j, paired, both)
  {
    assert forall k :: 0 <= k < 6 && k != i && k != j ==> t3.slots[k] == t.slots[k];
  }

  lemma {:induction false} StillOpen(p: PdnInfo, t: Table, t2: Table, i: int)
    requires Index(i) && t2.slots == t.slots[i := t2.slots[i]] && t2.slots[i].state == Busy
    ensures forall j :: LowestOpen(p, t2, i, j) ==> LowestOpen(p, t, i, j)
  {
    assert forall k :: k != i ==> Open(p, t2, k) == Open(p, t, k);
  }

  /** The pass number k1, on table t1 with these counters, is the one that came up. */
  ghost predicate LastPassIs(q: Request, replies: nat -> Reply, o: Outcome, t1: Table, k1: nat, retries: nat, delays: nat) {
    var p := Attempt(t1, q, replies(k1), retries, delays);
    && p.Done? && !p.byFallback
    && o == Outcome(Hold(PutUnusable(p.t), p.index), Up(p.index), k1 + 1)
  }

  lemma {:induction false} UpFrom(t0: Table, t: Table, q: Request, replies: nat -> Reply, k: nat, retries: nat, delays: nat)
    returns (t1: Table, k1: nat, retries1: nat, delays1: nat)
    requires retries <= MAX_RETRIES && delays <= MAX_DELAYED_RETRIES
    requires AtRest(t0) && Scratch(t0, t)
    requires SetupFrom(t, q, replies, k, retries, delays).exit.Up?
    ensures LastPassIs(q, replies, SetupFrom(t, q, replies, k, retries, delays), t1, k1, retries1, delays1)
    ensures Scratch(t0, t1) && k1 >= k && (k1 == k ==> t1 == t)
    decreases Measure(t, retries, delays)
  {
    AttemptDecreases(t, q, replies(k), retries, delays);
    match Attempt(t, q, replies(k), retries, delays)
    case Again(t2, retries2, delays2) =>
      StillScratch(t0, t, q, replies(k), retries, delays);
      t1, k1, retries1, delays1 := UpFrom(t0, t2, q, replies, k + 1, retries2, delays2);
    case Done(_, _, _) =>
      t1, k1, retries1, delays1 := t, k, retries, delays;
  }

  lemma {:induction false} StillScratch(t0: Table, t: Table, q: Request, r: Reply, retries: nat, delays: nat)
    requires AtRest(t0) && Scratch(t0, t) && Attempt(t, q, r, retries, delays).Again?
    ensures Scratch(t0, Attempt(t, q, r, retries, delays).t)
  {
    var j := RestAttempt(t0, t, q, r, retries, delays);
  }

  /** A setup from a table at rest that comes up, for every sequence of answers: with
      `t1` the table in which some blank slots have been given up (none if the first
      pass succeeds), the chosen slot is up, and the second context is exactly what
      the last answers say.  */
  lemma {:induction false} SecondContext(t: Table, q: Request, replies: nat -> Reply) returns (t1: Table, j: int)
    requires AtRest(t) && Setup(t, q, replies).exit.Up?
    ensures var o := Setup(t, q, replies);
      && o.attempts > 0 && Scratch(t, t1) && (o.attempts == 1 ==> t1 == t)
      && UpAs(t, t1, o.t, q.pdpType, replies(o.attempts - 1), o.exit.index, j)
  {
    var k, retries, delays;
    t1, k, retries, delays := UpFrom(t, t, q, replies, 0, 0, 0);
    j := LastPass(t, t1, q, replies(k), retries, delays);
  }

  /** An IPv4v6 setup that comes up ends with its slot paired, to the first other open
      slot, exactly if there is one, the network asks for the other IP version by
      itself, and the second activation works with both. A request for IPv4 and IPv6
      ends with two single contexts exactly if there is such a slot and the second
      activation works. Other requests never take a second slot.  */
  lemma {:induction false} PairedExactly(t: Table, q: Request, replies: nat -> Reply) returns (t1: Table, j: int)
    requires AtRest(t) && Setup(t, q, replies).exit.Up?
    ensures Setup(t, q, replies).attempts > 0 && Index(Setup(t, q, replies).exit.index) && j < MAX_PDP
    ensures var o := Setup(t, q, replies); var i, r := o.exit.index, replies(o.attempts - 1);
      && Scratch(t, t1) && (o.attempts == 1 ==> t1 == t) && LowestOpen(r.pdn, t1, i, j) && j != i
      && (o.t.slots[i].secondary != -1 <==>
            && q.pdpType == IPV4V6 && j >= 0 && r.wantsOtherIp
            && !r.second.contextRejected && r.second.data == DataOk && r.second.dualStack)
      && (o.t.slots[i].secondary != -1 ==> o.t.slots[i] == Pdp(i + 1, j + 1, true, Busy)
                                           && o.t.slots[j] == Pdp(j + 1, i + 1, false, Busy))
      && (q.pdpType == IPV4_AND_IPV6 && j >= 0 ==>
            (o.t.slots[j].state == Busy <==> !r.second.contextRejected && r.second.data == DataOk))
      && (q.pdpType == IP || q.pdpType == IPV6 ==> BusySet(o.t) == BusySet(t) + {i})
  {
    t1, j := SecondContext(t, q, replies);
    var i := Setup(t, q, replies).exit.index;
    assert t.slots[i].state == Idle by { assert ScratchAt(t.slots[i], t1.slots[i]); }
    if j >= 0 {
      assert ScratchAt(t.slots[j], t1.slots[j]);
      assert t.slots[j].state == Idle;
    }
  }

  /** A first activation that works on a slot that can be chosen ends the setup. */
  lemma {:induction false} ComesUpAtOnce(t: Table, q: Request, replies: nat -> Reply, i: int)
    requires Chosen(replies(0).pdn, t, i) && i >= 0
    requires !replies(0).first.contextRejected && replies(0).first.data == DataOk
    ensures Setup(t, q, replies).exit == Up(i) && Setup(t, q, replies).attempts == 1
  {
    AcquireIsChosen(t, replies(0).pdn);
    assert Acquire(t, replies(0).pdn).1 == i;
  }

  // ----- concrete setups -----

  const ACTIVATED := ActivationReply(false, DataOk, true)

  function OtherIpWanted(k: nat): Reply {
    Reply(NO_PDN, ACTIVATED, true, ACTIVATED, ACTIVATED)
  }

  lemma {:induction false} EmptyChoices(i: int)
    ensures Chosen(NO_PDN, EMPTY, i) <==> i == 0
    ensures LowestOpen(NO_PDN, EMPTY, 0, i) <==> i == 1
  {
    assert Open(NO_PDN, EMPTY, 0) && Open(NO_PDN, EMPTY, 1);
  }

  /** On an empty table, with a network that wants the other IP version by itself and
      a modem that can do both: IPv4v6 ends with slots 0 and 1 BUSY and paired, IPv4
      and IPv6 with the two BUSY by themselves, the others with slot 0 alone.  */
  lemma {:induction false} PairedRun(q: Request)
    ensures var o := Setup(EMPTY, q, OtherIpWanted);
      && o.exit == Up(0) && o.attempts == 1 && o.t.holders == [1, 0, 0, 0, 0, 0]
      && o.t.slots == (match q.pdpType
                       case IPV4V6 => [Pdp(1, 2, true, Busy), Pdp(2, 1, false, Busy), FREE, FREE, FREE, FREE]
                       case IPV4_AND_IPV6 => [Pdp(1, -1, false, Busy), Pdp(2, -1, false, Busy), FREE, FREE, FREE, FREE]
                       case _ => [Pdp(1, -1, false, Busy), FREE, FREE, FREE, FREE, FREE])
  {
    EmptyRests();
    EmptyChoices(0);
    ComesUpAtOnce(EMPTY, q, OtherIpWanted, 0);
    var t1, j := SecondContext(EMPTY, q, OtherIpWanted);
    EmptyChoices(j);
  }
}
