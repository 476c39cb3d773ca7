/** What one pass of a setup does with the modem's answer, and what the calls after a
    setup do to single slots.  */
module PdpDecisions {
  import opened Sims
  import opened PdpTable
  import opened PdpSetup
  import opened PdpOutcome
  import opened PdpRuns
  import opened PdpSecondContext

  // ----- one pass -----

  /** Slot i of `t` has been chosen by this pass and is blank. */
  ghost predicate Tries(t: Table, r: Reply, i: int) {
    Chosen(r.pdn, t, i) && 0 <= i < 6 && t.slots[i] == FREE && t.holders[i] == 0
  }

  lemma {:induction false} TriesTakes(t: Table, r: Reply, i: int)
    requires Tries(t, r, i)
    ensures Acquire(t, r.pdn) == (Take(t, i), i) && Put(Take(t, i), i) == t
  {
    AcquireIsChosen(t, r.pdn);
    AcquireTakesCandidate(t, r.pdn);
    BlankFailure(t, i);
  }

  /** Cause 288 is retried at once, up to five times; causes 26 and 47 six times after a
      delay, unless the data service is on a SIM that is allowed data; cause 253 tries
      another slot, marking this one with id 0; any other failure ends the setup.  */
  lemma {:induction false} Retried(t: Table, q: Request, r: Reply, retries: nat, delays: nat, i: int)
    requires Tries(t, r, i)
    requires r.first.contextRejected || (r.first.data != DataOk && r.first.data != CmeError(128))
    ensures Attempt(t, q, r, retries, delays)
         == if r.first.contextRejected || r.first.data == OtherError then GiveUp(t, i)
            else if r.first.data.cause == 288 && retries < 5 then Again(t, retries + 1, delays)
            else if r.first.data.cause in {26, 47} && !q.modemDataAllowed && delays < 6 then Again(t, retries, delays + 1)
            else if r.first.data.cause == 253
                 then Again(t.(slots := t.slots[i := Pdp(0, -1, false, Idle)]), retries, delays)
            else GiveUp(t, i)
  {
    TriesTakes(t, r, i);
  }

  /** Cause 128 ends the setup too, unless IPv4 alone works then: that context is up
      on the slot, which stays IDLE, and IPv6 on the first other open slot if its
      activation works.  */
  lemma {:induction false} RejectedByNetwork(t: Table, q: Request, r: Reply, retries: nat, delays: nat, i: int)
    returns (j: int)
    requires Tries(t, r, i) && !r.first.contextRejected && r.first.data == CmeError(128)
    requires forall k :: 0 <= k < 6 && Open(r.pdn, t, k) ==> t.slots[k] == FREE && t.holders[k] == 0
    ensures LowestOpen(r.pdn, t, i, j)
    ensures Attempt(t, q, r, retries, delays)
         == if r.ipv4.contextRejected || r.ipv4.data != DataOk then GiveUp(t, i)
            else var s := t.slots[i := Pdp(i + 1, -1, false, Idle)];
                 Done(t.(slots := if j >= 0 && !r.second.contextRejected && r.second.data == DataOk
                                  then s[j := Pdp(j + 1, -1, false, Busy)] else s), i, true)
  {
    TriesTakes(t, r, i);
    j := Ipv6Slot(t, r, i);
    if !r.ipv4.contextRejected && r.ipv4.data == DataOk { Ipv4Table(t, r, i, j); }
    RejectedPass(t, q, r, retries, delays, i);
  }

  lemma {:induction false} RejectedPass(t: Table, q: Request, r: Reply, retries: nat, delays: nat, i: int)
    requires Index(i) && Acquire(t, r.pdn) == (Take(t, i), i) && Put(Take(t, i), i) == t
    requires !r.first.contextRejected && r.first.data == CmeError(128)
    ensures var (t3, up) := Ipv4Ipv6Fallback(t, i, r);
      && Attempt(t, q, r, retries, delays) == (if up then Done(t3, i, true) else GiveUp(t3, i))
      && (up <==> !r.ipv4.contextRejected && r.ipv4.data == DataOk)
      && (!up ==> t3 == t)
  {
  }

  lemma {:induction false} Ipv6Slot(t: Table, r: Reply, i: int) returns (j: int)
    requires Index(i)
    requires forall k :: 0 <= k < 6 && Open(r.pdn, t, k) ==> t.slots[k] == FREE && t.holders[k] == 0
    ensures LowestOpen(r.pdn, t, i, j) && j == FirstFree(r.pdn, UpdateCid(t, i + 1, 1))
    ensures j >= 0 ==> Index(j) && j != i && t.slots[j] == FREE && t.holders[j] == 0
  {
    var t1 := UpdateCid(t, i + 1, 1);
    GetIsLowest(r.pdn, t1);
    j := FirstFree(r.pdn, t1);
    assert !Open(r.pdn, t1, i);
    assert forall k :: k != i ==> Open(r.pdn, t1, k) == Open(r.pdn, t, k);
    if j >= 0 { assert Open(r.pdn, t1, j); }
  }

  lemma {:induction false} Ipv4Table(t: Table, r: Reply, i: int, j: int)
    requires 0 <= i < 6 && t.slots[i] == FREE
    requires !r.ipv4.contextRejected && r.ipv4.data == DataOk
    requires j == FirstFree(r.pdn, UpdateCid(t, i + 1, 1))
    requires j >= 0 ==> Index(j) && j != i && t.slots[j] == FREE && t.holders[j] == 0
    ensures var s := t.slots[i := Pdp(i + 1, -1, false, Idle)];
      Ipv4Ipv6Fallback(t, i, r)
      == (t.(slots := if j >= 0 && !r.second.contextRejected && r.second.data == DataOk
                      then s[j := Pdp(j + 1, -1, false, Busy)] else s), true)
  {
    var t1 := UpdateCid(t, i + 1, 1);
    assert t1.slots == t.slots[i := Pdp(i + 1, -1, false, Idle)];
    if j >= 0 {
      BlankFailure(t1, j);
      assert UpdateCid(Take(t1, j), j + 1, 1).slots == t1.slots[j := Pdp(j + 1, -1, false, Busy)];
    }
  }

  /** Without a slot to try, a setup ends without an activation. */
  lemma {:induction false} NothingToTry(t: Table, q: Request, r: Reply, retries: nat, delays: nat)
    requires Chosen(r.pdn, t, -1)
    ensures Attempt(t, q, r, retries, delays) == GiveUp(t, -1)
  {
    AcquireIsChosen(t, r.pdn);
    AcquireTakesCandidate(t, r.pdn);
    var i := Acquire(t, r.pdn).1;
    assert !Preferred(r.pdn, t, i) && !Open(r.pdn, t, i);
    assert Acquire(t, r.pdn) == (t, -1);
  }

  /** Seventeen activations is not only the bound but what it takes on an empty table. */
  lemma {:induction false} Seventeen(q: Request)
    requires !q.modemDataAllowed
    ensures Setup(EMPTY, q, WorstReplies).attempts == 17
  {
    AttemptsAttained(EMPTY, q);
    assert Candidates([FREE]) == 1 by { assert [FREE][1..] == []; }
    assert Candidates([FREE, FREE]) == 2 by { assert [FREE, FREE][1..] == [FREE]; }
    assert Candidates([FREE, FREE, FREE]) == 3 by { assert [FREE, FREE, FREE][1..] == [FREE, FREE]; }
    assert Candidates([FREE, FREE, FREE, FREE]) == 4 by { assert [FREE, FREE, FREE, FREE][1..] == [FREE, FREE, FREE]; }
    assert Candidates([FREE, FREE, FREE, FREE, FREE]) == 5 by {
      assert [FREE, FREE, FREE, FREE, FREE][1..] == [FREE, FREE, FREE, FREE];
    }
    assert EMPTY.slots[1..] == [FREE, FREE, FREE, FREE, FREE];
  }

  // ----- after the setup -----

  /** `r` is `t` with slot i and its partner blank and without holders. */
  ghost predicate GoneWithPartner(t: Table, r: Table, i: int)
    requires Index(i)
  {
    var p := t.slots[i].secondary - 1;
    forall k :: 0 <= k < 6 ==>
      if k == i || k == p then r.slots[k] == Pdp(-1, -1, false, Idle) && r.holders[k] == 0
      else r.slots[k] == t.slots[k] && r.holders[k] == t.holders[k]
  }

  lemma {:induction false} PutBothExactly(t: Table, i: int)
    requires Paired(t) && Index(i)
    ensures GoneWithPartner(t, Put(Put(t, Partner(t, i) - 1), i), i)
  {
    assert PairedAt(t, i);
  }

  /** The token of a setup succeeds exactly if the list query says that the context is
      active; if it says that it is not, the slot and its partner are given back, and
      if it fails, nothing is.  */
  lemma {:induction false} TokenCompleted(t: Table, i: int, l: ListReply)
    requires Paired(t) && Index(i)
    ensures Complete(t, i, l).1 <==> l == ContextActive
    ensures if l == ContextInactive then GoneWithPartner(t, Complete(t, i, l).0, i) else Complete(t, i, l).0 == t
  {
    PutBothExactly(t, i);
  }

  /** A context ended by the network: nothing happens to a slot that is not BUSY; a
      BUSY one loses its holders and, if its channel is open, is given back with its
      partner.  */
  lemma {:induction false} ContextEndedExactly(t: Table, cid: int, channelOpen: bool)
    requires Paired(t)
    ensures var r := Step(t, ContextEnded(cid, channelOpen)); var i := cid - 1;
      if !(1 <= cid <= 6) || t.slots[i].state != Busy then r == t
      else if channelOpen then GoneWithPartner(t, r, i)
      else r == t.(holders := t.holders[i := 0])
  {
    if 1 <= cid <= 6 { PutBothExactly(t, cid - 1); }
  }

  /** An update of an id, with its three meanings: up, down, and given up, which marks a
      slot only if it has none.  */
  lemma {:induction false} UpdateCidExactly(t: Table, cid: int, state: int)
    ensures UpdateCid(t, cid, state)
         == if 1 <= cid <= 6
            then var s := t.slots[cid - 1];
                 t.(slots := t.slots[cid - 1 := s.(cid := if state == 1 then cid else if state == 0 then -1
                                                          else if state == -1 && s.cid == -1 then 0 else s.cid)])
            else t
  {
    if 1 <= cid <= 6 { assert t.slots[cid - 1 := t.slots[cid - 1]] == t.slots; }
  }

  /** A reported id changes the id of its own slot only: to itself if the context is
      active, to none if it is not.  */
  lemma {:induction false} CidReportedExactly(t: Table, cid: int, active: bool)
    ensures Step(t, CidReported(cid, active))
         == if 1 <= cid <= 6
            then t.(slots := t.slots[cid - 1 := t.slots[cid - 1].(cid := if active then cid else -1)])
            else t
  {
  }

  /** The same slot, perhaps without its partner. */
  predicate Loosened(s: Pdp, r: Pdp) {
    r == s || r == s.(secondary := -1)
  }

  predicate Attached(s: Pdp) {
    s.state == Busy || s.cid > 0
  }

  lemma {:induction false} DetachFrom(t: Table, from: nat, k: int)
    requires from <= 6 && 0 <= k < 6
    ensures var r := DetachAll(t, from);
      if k >= from && Attached(t.slots[k]) then r.slots[k] == FREE && r.holders[k] == 0
      else Loosened(t.slots[k], r.slots[k]) && r.holders[k] == t.holders[k]
    decreases 6 - from
  {
    if from < 6 {
      var t1 := if Attached(t.slots[from]) then Put(t, from) else t;
      PutLoosens(t, from, k);
      DetachFrom(t1, from + 1, k);
    }
  }

  lemma {:induction false} PutLoosens(t: Table, i: int, k: int)
    requires Index(i) && 0 <= k < 6
    ensures var r := Put(t, i);
      if k == i then r.slots[k] == FREE && r.holders[k] == 0
      else Loosened(t.slots[k], r.slots[k]) && r.holders[k] == t.holders[k]
  {
  }

  /** After a detach no slot is BUSY and none has an id; a slot that was neither BUSY nor
      had an id keeps its count.  */
  lemma {:induction false} DetachExactly(t: Table, k: int)
    requires 0 <= k < 6
    ensures var s, r := t.slots[k], Step(t, Detach);
      && r.slots[k].state == Idle && r.slots[k].cid <= 0
      && (if s.state == Busy || s.cid > 0 then r.slots[k] == Pdp(-1, -1, false, Idle) && r.holders[k] == 0
          else (r.slots[k] == s || r.slots[k] == s.(secondary := -1)) && r.holders[k] == t.holders[k])
  {
    DetachFrom(t, 0, k);
  }
}
