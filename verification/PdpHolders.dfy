/** Holder counts through a setup, from any coherent table: context ids may have been
    reported for idle slots, so the table need not be at rest.  */
module PdpHolders {
  import opened Sims
  import opened PdpTable
  import opened PdpSetup
  import opened PdpOutcome

  /** An idle slot has no holders and no partner. */
  lemma {:induction false} IdleSlot(t: Table, i: int)
    requires Coherent(t) && Index(i) && t.slots[i].state == Idle
    ensures t.holders[i] == 0 && t.slots[i].secondary == -1
  {
    assert PairedAt(t, i);
  }

  lemma {:induction false} ActivateCounts(t: Table, i: int, primaryCid: int, a: ActivationReply)
    requires Index(i) && t.holders[i] == 0
    ensures Activate(t, i, primaryCid, a).0.holders == t.holders
  {
  }

  /** The second slot of a setup, idle before, becomes the partner or stays single. */
  ghost predicate PartnerWasIdle(t0: Table, t: Table, i: int)
    requires Index(i)
  {
    var p := Partner(t, i) - 1;
    Index(p) ==> p != i && t0.slots[p].state == Idle
  }

  lemma {:induction false} SecondCounts(t: Table, p: PdnInfo, primaryCid: int, a: ActivationReply, i: int)
    requires Coherent(t) && IsBusy(t, i) && t.slots[i].secondary == -1
    requires primaryCid == 0 || primaryCid == i + 1
    ensures var (t1, j) := Get(p, t);
      j >= 0 ==>
        var r := Activate(t1, j, primaryCid, a).0;
        && r.holders == t.holders && IsBusy(r, i)
        && (Partner(r, i) == -1 || Partner(r, i) == j + 1) && j != i && t.slots[j].state == Idle
  {
    GetTakes(p, t);
    var (t1, j) := Get(p, t);
    if j >= 0 {
      IdleSlot(t, j);
      ActivateCounts(t1, j, primaryCid, a);
    }
  }

  lemma {:induction false} CheckFallBackCounts(t: Table, ty: PdpType, i: int, r: Reply)
    requires Coherent(t) && IsBusy(t, i) && t.slots[i].secondary == -1
    ensures var c := CheckFallBack(t, ty, i, r);
      c.holders == t.holders && IsBusy(c, i) && PartnerWasIdle(t, c, i) && BusySet(t) <= BusySet(c)
  {
    GetTakes(r.pdn, t);
    SecondActivation(t, r.pdn, if ty == IPV4V6 then i + 1 else 0, r.second);
    SecondCounts(t, r.pdn, if ty == IPV4V6 then i + 1 else 0, r.second, i);
  }

  /** How one pass treats the counts: it leaves them alone. What it brings up was
      idle; a fallback comes up on a slot that stays IDLE.  */
  ghost predicate CountedPass(t0: Table, p: Pass) {
    && p.t.holders == t0.holders
    && match p {
         case Again(_, _, _) => true
         case GiveUp(t1, i) => Index(i) ==> t1.slots[i] == FREE
         case Done(t1, i, byFallback) =>
           && Index(i) && t0.slots[i].state == Idle
           && if byFallback then t1.slots[i].state == Idle
              else t1.slots[i].state == Busy && PartnerWasIdle(t0, t1, i) && BusySet(t0) <= BusySet(t1)
       }
  }

  lemma {:induction false} CountedSuccess(t: Table, q: Request, r: Reply, retries: nat, delays: nat, i: int)
    requires Coherent(t) && Index(i) && Candidate(t.slots[i]) && Acquire(t, r.pdn) == (Take(t, i), i)
    requires Activate(Take(t, i), i, 0, r.first).1 == Success
    ensures CountedPass(t, Attempt(t, q, r, retries, delays))
  {
    IdleSlot(t, i);
    TakeKeeps(t, i);
    var t2 := Activate(Take(t, i), i, 0, r.first).0;
    ActivateKeeps(Take(t, i), i, 0, r.first);
    ActivateCounts(Take(t, i), i, 0, r.first);
    assert Held(t2) && BusySet(t) <= BusySet(t2);
    CheckFallBackCounts(t2, q.pdpType, i, r);
    assert Attempt(t, q, r, retries, delays) == Done(CheckFallBack(t2, q.pdpType, i, r), i, false);
  }

  lemma {:induction false} CountedFallback(t: Table, t2: Table, i: int, r: Reply)
    requires Coherent(t2) && Index(i) && t2.slots[i] == FREE && t2.holders == t.holders
    ensures var (t3, ok) := Ipv4Ipv6Fallback(t2, i, r);
      t3.holders == t.holders && (if ok then t3.slots[i].state == Idle else t3 == t2)
  {
    IdleSlot(t2, i);
    FallbackLeavesIdle(t2, i, r);
    var t3 := UpdateCid(t2, i + 1, 1);
    GetTakes(r.pdn, t3);
    var (t4, j) := Get(r.pdn, t3);
    if j >= 0 {
      IdleSlot(t2, j);
      ActivateCounts(t4, j, 0, r.second);
    }
  }

  lemma {:induction false} CountedFailure(t: Table, q: Request, r: Reply, retries: nat, delays: nat, i: int)
    requires Coherent(t) && Index(i) && Candidate(t.slots[i]) && Acquire(t, r.pdn) == (Take(t, i), i)
    requires Activate(Take(t, i), i, 0, r.first).1 != Success
    ensures CountedPass(t, Attempt(t, q, r, retries, delays))
  {
    IdleSlot(t, i);
    FailedActivation(t, i, r.first);
    TakeKeeps(t, i);
    PutKeeps(Take(t, i), i);
    PutKeepsPaired(Take(t, i), i);
    var t2 := Put(Take(t, i), i);
    assert t2.holders == t.holders;
    CountedFallback(t, t2, i, r);
  }

  lemma {:induction false} CountedAttempt(t: Table, q: Request, r: Reply, retries: nat, delays: nat)
    requires Coherent(t)
    ensures CountedPass(t, Attempt(t, q, r, retries, delays))
  {
    AcquireTakesCandidate(t, r.pdn);
    var i := Acquire(t, r.pdn).1;
    if i >= 0 {
      if Activate(Take(t, i), i, 0, r.first).1 == Success {
        CountedSuccess(t, q, r, retries, delays, i);
      } else {
        CountedFailure(t, q, r, retries, delays, i);
      }
    }
  }

  /** How a whole setup treats the counts. */
  ghost predicate CountedExit(t0: Table, o: Outcome) {
    match o.exit
    case Failed => o.t.holders == t0.holders
    case Up(i) =>
      && Index(i) && t0.slots[i].state == Idle && o.t.slots[i].state == Busy
      && o.t.holders == t0.holders[i := 1] && PartnerWasIdle(t0, o.t, i) && BusySet(t0) <= BusySet(o.t)
    case UpByFallback(i) => Index(i) && o.t.slots[i].state == Idle && o.t.holders[i] == 1
  }

  lemma {:induction false} CountedGiveUp(t0: Table, t1: Table, i: int, n: nat)
    requires Coherent(t0) && CountedPass(t0, GiveUp(t1, i)) && BusySet(t1) == BusySet(t0)
    ensures CountedExit(t0, Outcome(Abandon(t1, i), Failed, n))
  {
    if Index(i) {
      assert i !in BusySet(t1);
      IdleSlot(t0, i);
      assert Put(t1, i).holders == t0.holders;
    }
  }

  lemma {:induction false} CountedDone(t0: Table, t1: Table, i: int, byFallback: bool, n: nat)
    requires Coherent(t0) && CountedPass(t0, Done(t1, i, byFallback))
    ensures CountedExit(t0, Outcome(Hold(PutUnusable(t1), i), if byFallback then UpByFallback(i) else Up(i), n))
  {
    IdleSlot(t0, i);
    CidsDoNotMatter(t1, PutUnusable(t1));
  }

  /** `t` differs from `t0` in marks and ids only. */
  ghost predicate SameCounts(t0: Table, t: Table) {
    t.holders == t0.holders && BusySet(t) == BusySet(t0)
  }

  lemma {:induction false} SameIdle(t0: Table, t: Table, i: int)
    requires SameCounts(t0, t) && Index(i)
    ensures t0.slots[i].state == t.slots[i].state
  {
    assert i in BusySet(t) <==> i in BusySet(t0);
  }

  lemma {:induction false} CountedFromEarlier(t0: Table, t: Table, p: Pass)
    requires SameCounts(t0, t) && CountedPass(t, p)
    ensures CountedPass(t0, p)
  {
    if p.Done? {
      SameIdle(t0, t, p.index);
      if Index(Partner(p.t, p.index) - 1) { SameIdle(t0, t, Partner(p.t, p.index) - 1); }
    }
  }

  lemma {:induction false} CountedAgain(t: Table, q: Request, r: Reply, retries: nat, delays: nat)
    requires Coherent(t) && !Attempt(t, q, r, retries, delays).Done?
    ensures SameCounts(t, Attempt(t, q, r, retries, delays).t) && Coherent(Attempt(t, q, r, retries, delays).t)
  {
    var p := Attempt(t, q, r, retries, delays);
    CountedAttempt(t, q, r, retries, delays);
    UnfinishedAttempt(t, q, r, retries, delays);
    AttemptKeepsPaired(t, q, r, retries, delays);
    forall i | 0 <= i < MAX_PDP && p.t.holders[i] > 0 ensures p.t.slots[i].state == Busy {
      SameIdle(t, p.t, i);
    }
  }

  lemma {:induction false} SetupCountsFrom(t0: Table, t: Table, q: Request, replies: nat -> Reply,
                                           k: nat, retries: nat, delays: nat)
    requires retries <= MAX_RETRIES && delays <= MAX_DELAYED_RETRIES
    requires Coherent(t0) && Coherent(t) && SameCounts(t0, t)
    ensures CountedExit(t0, SetupFrom(t, q, replies, k, retries, delays))
    decreases Measure(t, retries, delays)
  {
    AttemptDecreases(t, q, replies(k), retries, delays);
    CountedAttempt(t, q, replies(k), retries, delays);
    CountedFromEarlier(t0, t, Attempt(t, q, replies(k), retries, delays));
    match Attempt(t, q, replies(k), retries, delays)
    case Again(t1, retries1, delays1) =>
      CountedAgain(t, q, replies(k), retries, delays);
      SetupCountsFrom(t0, t1, q, replies, k + 1, retries1, delays1);
    case GiveUp(t1, i) =>
      CountedAgain(t, q, replies(k), retries, delays);
      CountedGiveUp(t0, t1, i, if i < 0 then k else k + 1);
    case Done(t1, i, byFallback) => CountedDone(t0, t1, i, byFallback, k + 1);
  }

  /** From every coherent table: a failed setup leaves all counts alone; a successful
      one gives one holder to a slot that was idle, whose partner, if any, was idle
      too. Only BUSY slots have holders afterwards, if and only if the last answers
      were not a network reject and then a working IPv4 activation.  */
  lemma {:induction false} SetupCounts(t: Table, q: Request, replies: nat -> Reply)
    requires Coherent(t)
    ensures var o := Setup(t, q, replies);
      CountedExit(t, o) && Paired(o.t) && (Held(o.t) <==> !LastAnswerFallsBack(t, q, replies))
  {
    SetupCountsFrom(t, t, q, replies, 0, 0, 0);
    SetupKeepsPaired(t, q, replies, 0, 0, 0);
    FallbackAnswered(t, q, replies);
    var o := Setup(t, q, replies);
    if o.exit.Failed? {
      FailedSetupLeaksNoSlot(t, q, replies, 0, 0, 0);
      HeldBySame(t, o.t);
    } else if o.exit.Up? {
      forall i | 0 <= i < MAX_PDP && o.t.holders[i] > 0 ensures o.t.slots[i].state == Busy {
        assert i == o.exit.index || i in BusySet(t);
      }
    }
  }

  lemma {:induction false} HeldBySame(t: Table, r: Table)
    requires Held(t) && SameCounts(t, r)
    ensures Held(r)
  {
    forall i | 0 <= i < MAX_PDP && r.holders[i] > 0 ensures r.slots[i].state == Busy {
      SameIdle(t, r, i);
    }
  }
}
