/** What a setup and a deactivation leave behind on one SIM: from a table at rest
    exactly, and what goes wrong after a network reject.  */
module PdpOutcome {
  import opened Sims
  import opened PdpTable
  import opened PdpSetup

  // ----- the network-reject fallback, in terms of the modem's answers -----

  /** A context rejected by the network (cause 128) whose IPv4 activation then works. */
  predicate RejectedThenIpv4Up(r: Reply) {
    && !r.first.contextRejected && r.first.data == CmeError(128)
    && !r.ipv4.contextRejected && r.ipv4.data == DataOk
  }

  /** The last answers that a setup got are of this kind. */
  ghost predicate LastAnswerFallsBack(t: Table, q: Request, replies: nat -> Reply) {
    var n := Setup(t, q, replies).attempts;
    n > 0 && RejectedThenIpv4Up(replies(n - 1))
  }

  lemma {:induction false} RejectCode(t: Table, i: int, a: ActivationReply)
    requires Index(i)
    ensures Activate(t, i, 0, a).1 == NeedFallback <==> !a.contextRejected && a.data == CmeError(128)
  {
  }

  lemma {:induction false} FallbackWorks(t: Table, i: int, r: Reply)
    requires Index(i)
    ensures Ipv4Ipv6Fallback(t, i, r).1 <==> !r.ipv4.contextRejected && r.ipv4.data == DataOk
  {
  }

  lemma {:induction false} AttemptFallsBack(t: Table, q: Request, r: Reply, retries: nat, delays: nat)
    ensures var p := Attempt(t, q, r, retries, delays);
      && (p.Done? ==> (p.byFallback <==> RejectedThenIpv4Up(r)))
      && (p.Again? || (p.GiveUp? && p.index >= 0) ==> !RejectedThenIpv4Up(r))
  {
    AcquireTakesCandidate(t, r.pdn);
    var (t1, i) := Acquire(t, r.pdn);
    if i >= 0 {
      RejectCode(t1, i, r.first);
      FallbackWorks(Activate(t1, i, 0, r.first).0, i, r);
    }
  }

  lemma {:induction false} FallbackAnsweredFrom(t: Table, q: Request, replies: nat -> Reply,
                                                k: nat, retries: nat, delays: nat)
    requires retries <= MAX_RETRIES && delays <= MAX_DELAYED_RETRIES
    ensures AnsweredFrom(SetupFrom(t, q, replies, k, retries, delays), replies, k)
    decreases Measure(t, retries, delays)
  {
    AttemptDecreases(t, q, replies(k), retries, delays);
    AttemptFallsBack(t, q, replies(k), retries, delays);
    match Attempt(t, q, replies(k), retries, delays)
    case Again(t1, retries1, delays1) =>
      FallbackAnsweredFrom(t1, q, replies, k + 1, retries1, delays1);
      AnsweredBefore(SetupFrom(t1, q, replies, k + 1, retries1, delays1), replies, k);
    case GiveUp(t1, i) => AnsweredNow(Outcome(Abandon(t1, i), Failed, if i < 0 then k else k + 1), replies, k, i >= 0);
    case Done(t1, i, byFallback) =>
      AnsweredNow(Outcome(Hold(PutUnusable(t1), i), if byFallback then UpByFallback(i) else Up(i), k + 1), replies, k, true);
  }

  lemma {:induction false} AnsweredNow(o: Outcome, replies: nat -> Reply, k: nat, activated: bool)
    requires o.attempts == if activated then k + 1 else k
    requires o.exit.UpByFallback? <==> activated && RejectedThenIpv4Up(replies(k))
    ensures AnsweredFrom(o, replies, k)
  {
  }

  ghost predicate AnsweredFrom(o: Outcome, replies: nat -> Reply, k: nat) {
    && o.attempts >= k
    && (o.exit.UpByFallback? <==> o.attempts > k && RejectedThenIpv4Up(replies(o.attempts - 1)))
  }

  lemma {:induction false} AnsweredBefore(o: Outcome, replies: nat -> Reply, k: nat)
    requires AnsweredFrom(o, replies, k + 1) && !RejectedThenIpv4Up(replies(k))
    ensures AnsweredFrom(o, replies, k)
  {
  }

  /** From any table, a setup comes up by the fallback exactly if its last answers
      are a network reject and then a working IPv4 activation; so never if the modem
      does not answer like that.  */
  lemma {:induction false} FallbackAnswered(t: Table, q: Request, replies: nat -> Reply)
    ensures Setup(t, q, replies).exit.UpByFallback? <==> LastAnswerFallsBack(t, q, replies)
    ensures (forall k :: !RejectedThenIpv4Up(replies(k))) ==> !LastAnswerFallsBack(t, q, replies)
  {
    FallbackAnsweredFrom(t, q, replies, 0, 0, 0);
  }

  // ----- tables at rest -----

  /** What holds between requests as long as no network-reject fallback went up. */
  ghost predicate AtRest(t: Table) {
    Paired(t) && IdleBlank(t) && Held(t) && NoneUnusable(t)
  }

  /** `t` is `t0` with some blank slots marked UNUSABLE. */
  ghost predicate Scratch(t0: Table, t: Table) {
    && t.holders == t0.holders
    && forall k :: 0 <= k < MAX_PDP ==> ScratchAt(t0.slots[k], t.slots[k])
  }

  ghost predicate ScratchAt(s0: Pdp, s: Pdp) {
    s == s0 || (s0 == FREE && s == FREE.(cid := UNUSABLE_CID))
  }

  /** `t` is such a table with the blank slots i and j (perhaps the same) allocated. */
  ghost predicate Opened(t0: Table, t: Table, i: int, j: int) {
    && Index(i) && Index(j)
    && t.holders == t0.holders
    && t0.slots[i] == FREE && t0.slots[j] == FREE
    && t.slots[i].state == Busy && t.slots[i].cid == i + 1
    && t.slots[j].state == Busy && t.slots[j].cid == j + 1
    && forall k :: 0 <= k < MAX_PDP && k != i && k != j ==> ScratchAt(t0.slots[k], t.slots[k])
  }

  lemma {:induction false} ScratchEnds(t0: Table, t: Table)
    requires AtRest(t0) && Scratch(t0, t)
    ensures PutUnusable(t) == t0
  {
    assert PutUnusable(t).slots == t0.slots;
  }

  lemma {:induction false} CheckFallBackOpens(t0: Table, t: Table, ty: PdpType, i: int, r: Reply) returns (j: int)
    requires AtRest(t0) && Opened(t0, t, i, i)
    ensures Opened(t0, CheckFallBack(t, ty, i, r), i, j)
    ensures j == i ==> CheckFallBack(t, ty, i, r) == t
  {
    GetTakes(r.pdn, t);
    var (t1, c) := Get(r.pdn, t);
    j := i;
    if CheckFallBack(t, ty, i, r) != t {
      assert ScratchAt(t0.slots[c], t.slots[c]);
      assert t.slots[c] == FREE;
      var (t2, code) := Activate(t1, c, if ty == IPV4V6 then i + 1 else 0, r.second);
      BlankFailure(t, c);
      j := c;
    }
  }

  /** What one pass leaves: more slots marked, or the last slots opened, or the
      fallback up on a slot that stays IDLE.  */
  ghost predicate RestPass(t0: Table, p: Pass, j: int) {
    match p
    case Again(t1, _, _) => Scratch(t0, t1)
    case GiveUp(t1, i) => Scratch(t0, t1) && (Index(i) ==> t1.slots[i] == FREE && t1.holders[i] == 0)
    case Done(t1, i, byFallback) =>
      if byFallback then Index(i) && t1.slots[i].state == Idle && t1.holders[i] == 0
      else Opened(t0, t1, i, j)
  }

  lemma {:induction false} RestFailure(t0: Table, t: Table, q: Request, r: Reply, retries: nat, delays: nat, i: int)
    requires AtRest(t0) && Scratch(t0, t)
    requires Index(i) && t.slots[i] == FREE && Acquire(t, r.pdn) == (Take(t, i), i)
    requires Activate(Take(t, i), i, 0, r.first) == (t, Activate(Take(t, i), i, 0, r.first).1)
    requires Activate(Take(t, i), i, 0, r.first).1 != Success
    ensures RestPass(t0, Attempt(t, q, r, retries, delays), -1)
  {
    assert t.holders[i] == 0;
    FallbackLeavesIdle(t, i, r);
    assert Scratch(t0, MarkUnusable(t, i)) by { assert ScratchAt(t0.slots[i], t.slots[i]); }
  }

  lemma {:induction false} RestSuccess(t0: Table, t: Table, q: Request, r: Reply, retries: nat, delays: nat, i: int)
    returns (j: int)
    requires AtRest(t0) && Scratch(t0, t)
    requires Index(i) && t.slots[i] == FREE && Acquire(t, r.pdn) == (Take(t, i), i)
    requires Activate(Take(t, i), i, 0, r.first).1 == Success
    ensures RestPass(t0, Attempt(t, q, r, retries, delays), j)
  {
    var t2 := Activate(Take(t, i), i, 0, r.first).0;
    assert ScratchAt(t0.slots[i], t.slots[i]);
    assert Opened(t0, t2, i, i);
    j := CheckFallBackOpens(t0, t2, q.pdpType, i, r);
    assert Attempt(t, q, r, retries, delays) == Done(CheckFallBack(t2, q.pdpType, i, r), i, false);
  }

  lemma {:induction false} RestAttempt(t0: Table, t: Table, q: Request, r: Reply, retries: nat, delays: nat) returns (j: int)
    requires AtRest(t0) && Scratch(t0, t)
    ensures RestPass(t0, Attempt(t, q, r, retries, delays), j)
  {
    AcquireTakesCandidate(t, r.pdn);
    var i := Acquire(t, r.pdn).1;
    j := -1;
    if i >= 0 {
      assert ScratchAt(t0.slots[i], t.slots[i]);
      if Activate(Take(t, i), i, 0, r.first).1 == Success {
        j := RestSuccess(t0, t, q, r, retries, delays, i);
      } else {
        FailedActivation(t, i, r.first);
        BlankFailure(t, i);
        RestFailure(t0, t, q, r, retries, delays, i);
      }
    }
  }

  /** Activating one slot does not change the state or the holders of another. */
  lemma {:induction false} ActivateElsewhere(t: Table, j: int, a: ActivationReply, i: int)
    requires Index(i) && Index(j) && i != j
    ensures var r := Activate(t, j, 0, a).0;
      r.slots[i].state == t.slots[i].state && r.holders[i] == t.holders[i]
  {
  }

  /** The network-reject fallback brings up IPv4 on a slot that stays IDLE. */
  lemma {:induction false} FallbackLeavesIdle(t: Table, i: int, r: Reply)
    requires Index(i) && t.slots[i] == FREE && t.holders[i] == 0
    ensures var (t1, ok) := Ipv4Ipv6Fallback(t, i, r);
      if ok then t1.slots[i].state == Idle && t1.holders[i] == 0 else t1 == t
  {
    if Ipv4Ipv6Fallback(t, i, r).1 {
      GetTakes(r.pdn, UpdateCid(t, i + 1, 1));
      var (t2, j) := Get(r.pdn, UpdateCid(t, i + 1, 1));
      if j >= 0 {
        assert j != i;
        ActivateElsewhere(t2, j, r.second, i);
      }
    }
  }

  /** How a successful setup changed the table: slot i, blank before, is up with
      one holder; perhaps a second blank slot came up too; nothing else moved.  */
  ghost predicate Grew(t0: Table, t: Table, i: int, j: int) {
    && Opened(t0, t.(holders := t0.holders), i, j)
    && t.holders == t0.holders[i := 1]
    && forall k :: 0 <= k < MAX_PDP && k != i && k != j ==> t.slots[k] == t0.slots[k]
  }

  lemma {:induction false} OpenedEnds(t0: Table, t: Table, i: int, j: int)
    requires AtRest(t0) && Opened(t0, t, i, j)
    ensures Grew(t0, Hold(PutUnusable(t), i), i, j)
  {
    assert t0.slots[i].state == Idle;
  }

  lemma {:induction false} GrewRests(t0: Table, t: Table, i: int, j: int)
    requires AtRest(t0) && Grew(t0, t, i, j)
    ensures IdleBlank(t) && Held(t) && NoneUnusable(t)
    ensures BusySet(t) == BusySet(t0) + {i, j}
  {
  }

  ghost predicate RestExit(t0: Table, o: Outcome, j: int) {
    match o.exit
    case Failed => o.t == t0
    case Up(i) => Grew(t0, o.t, i, j)
    case UpByFallback(i) => Index(i) && o.t.slots[i].state == Idle && o.t.holders[i] == 1
  }

  lemma {:induction false} RestGivesUp(t0: Table, t1: Table, i: int, n: nat, j: int)
    requires AtRest(t0) && RestPass(t0, GiveUp(t1, i), j)
    ensures RestExit(t0, Outcome(Abandon(t1, i), Failed, n), j)
  {
    assert Put(t1, i) == t1 by { if Index(i) { assert Put(t1, i).slots == t1.slots; } }
    ScratchEnds(t0, t1);
  }

  lemma {:induction false} RestComesUp(t0: Table, t1: Table, i: int, byFallback: bool, n: nat, j: int)
    requires AtRest(t0) && RestPass(t0, Done(t1, i, byFallback), j)
    ensures RestExit(t0, Outcome(Hold(PutUnusable(t1), i), if byFallback then UpByFallback(i) else Up(i), n), j)
  {
    if !byFallback { OpenedEnds(t0, t1, i, j); }
  }

  lemma {:induction false} SetupFromRest(t0: Table, t: Table, q: Request, replies: nat -> Reply,
                                         k: nat, retries: nat, delays: nat) returns (j: int)
    requires retries <= MAX_RETRIES && delays <= MAX_DELAYED_RETRIES
    requires AtRest(t0) && Scratch(t0, t)
    ensures RestExit(t0, SetupFrom(t, q, replies, k, retries, delays), j)
    decreases Measure(t, retries, delays)
  {
    AttemptDecreases(t, q, replies(k), retries, delays);
    j := RestAttempt(t0, t, q, replies(k), retries, delays);
    match Attempt(t, q, replies(k), retries, delays)
    case Again(t1, retries1, delays1) => j := SetupFromRest(t0, t1, q, replies, k + 1, retries1, delays1);
    case GiveUp(t1, i) => RestGivesUp(t0, t1, i, if i < 0 then k else k + 1, j);
    case Done(t1, i, byFallback) => RestComesUp(t0, t1, i, byFallback, k + 1, j);
  }

  /** From a table at rest, for every sequence of modem answers: a failed setup
      returns exactly the table it was given; a successful one allocates its
      slot, at most one more, and touches nothing else. The table is at rest
      again if and only if the last answers were not a network reject and then a
      working IPv4 activation.  */
  lemma {:induction false} SetupOutcome(t: Table, q: Request, replies: nat -> Reply) returns (j: int)
    requires AtRest(t)
    ensures var o := Setup(t, q, replies);
      && (o.exit == Failed ==> o.t == t)
      && (o.exit.Up? ==> Grew(t, o.t, o.exit.index, j) && BusySet(o.t) == BusySet(t) + {o.exit.index, j})
      && (AtRest(o.t) <==> !LastAnswerFallsBack(t, q, replies))
  {
    var o := Setup(t, q, replies);
    FallbackAnswered(t, q, replies);
    j := SetupFromRest(t, t, q, replies, 0, 0, 0);
    SetupKeepsPaired(t, q, replies, 0, 0, 0);
    if o.exit.Up? { GrewRests(t, o.t, o.exit.index, j); }
  }

  // ----- concrete setups -----

  function Works(k: nat): Reply {
    var a := ActivationReply(false, DataOk, true);
    Reply(NO_PDN, a, false, a, a)
  }

  lemma {:induction false} EmptyRests()
    ensures AtRest(EMPTY) && BusySet(EMPTY) == {}
  {
    forall i | 0 <= i < MAX_PDP ensures PairedAt(EMPTY, i) { }
  }

  /** On an empty table and a willing modem, slot 0 comes up and nothing else. */
  lemma {:induction false} EasySetup(q: Request)
    requires q.pdpType == IP
    ensures var o := Setup(EMPTY, q, Works);
      o.exit == Up(0) && AtRest(o.t) && BusySet(o.t) == {0} && o.t.holders[0] == 1
  {
    EmptyRests();
    var j := SetupOutcome(EMPTY, q, Works);
    assert Acquirable(NO_PDN, EMPTY, 0);
    assert Acquire(EMPTY, NO_PDN) == (Take(EMPTY, 0), 0);
    var t := UpdateCid(Take(EMPTY, 0), 1, 1);
    assert Attempt(EMPTY, q, Works(0), 0, 0) == Done(t, 0, false);
    var o := Setup(EMPTY, q, Works);
    assert o.t == Hold(PutUnusable(t), 0);
    assert forall i :: 0 < i < MAX_PDP ==> o.t.slots[i].state == Idle;
  }

  /** A setup on that table whose list query fails: the token is failed, and the
      slot stays BUSY with a holder nobody knows of.  */
  lemma {:induction false} FailedQueryRun(q: Request)
    requires q.pdpType == IP
    ensures var o := Setup(EMPTY, q, Works);
      o.exit == Up(0) && Complete(o.t, 0, QueryFailed) == (o.t, false)
      && BusySet(o.t) == {0} && o.t.holders[0] == 1
  {
    EasySetup(q);
  }

  /** The excluded case exists: on an empty table, a network reject followed by a
      working IPv4 activation leaves an IDLE slot with one holder.  */
  lemma {:induction false} FallbackBreaksRest(q: Request)
    ensures exists t, replies {:trigger Setup(t, q, replies)} ::
      AtRest(t) && Setup(t, q, replies).exit == UpByFallback(0)
      && !Held(Setup(t, q, replies).t)
  {
    var t, pdn := EMPTY, NO_PDN;
    var reject := ActivationReply(false, CmeError(128), false);
    var works := ActivationReply(false, DataOk, false);
    var replies := (k: nat) => Reply(pdn, reject, false, works, works);
    EmptyRests();
    AcquireTakesCandidate(t, pdn);
    assert Acquirable(pdn, t, 0);
    assert Acquire(t, pdn) == (Take(t, 0), 0);
    FailedActivation(t, 0, reject);
    BlankFailure(t, 0);
    FallbackLeavesIdle(t, 0, replies(0));
    assert Attempt(t, q, replies(0), 0, 0).Done?;
    var o := Setup(t, q, replies);
    assert o.t.holders[0] == 1 && o.t.slots[0].state == Idle;
  }

  // ----- completing and deactivating -----

  /** Releasing a slot together with its partner. */
  lemma {:induction false} PutBoth(t: Table, i: int)
    requires Coherent(t) && Index(i)
    ensures var r := Put(Put(t, Partner(t, i) - 1), i);
      && Coherent(r) && BusySet(r) == BusySet(t) - {i, Partner(t, i) - 1}
      && (AtRest(t) ==> AtRest(r))
  {
    var p := Partner(t, i) - 1;
    PutKeeps(t, p);
    PutKeepsPaired(t, p);
    PutKeeps(Put(t, p), i);
    PutKeepsPaired(Put(t, p), i);
  }

  /** A setup whose token is failed by the list query gives back everything it
      took, if and only if the query was answered and no unpaired second slot
      came up.  */
  lemma {:induction false} FailedTokenLeaks(t0: Table, t: Table, i: int, j: int, l: ListReply)
    requires AtRest(t0) && Grew(t0, t, i, j) && AtRest(t)
    requires !Complete(t, i, l).1
    ensures BusySet(Complete(t, i, l).0) == BusySet(t0)
       <==> l == ContextInactive && (j == i || t.slots[i].secondary == j + 1)
  {
    GrewRests(t0, t, i, j);
    assert i !in BusySet(t0) && j !in BusySet(t0);
    if l == ContextInactive {
      PutBoth(t, i);
      assert PairedAt(t, i);
      var p := Partner(t, i) - 1;
      if p in BusySet(t0) {
        assert t0.slots[p] == t.slots[p];
        assert PairedAt(t0, p);
      }
    }
  }

  /** Deactivation: the context goes down exactly when it is BUSY and this call
      leaves its count at 0; then it and its partner are released, and otherwise
      only the count changes.  */
  lemma {:induction false} DeactivateOutcome(t: Table, cid: int)
    requires Coherent(t)
    ensures var (r, d) := Deactivate(t, cid); var i := cid - 1;
      && Coherent(r) && (AtRest(t) ==> AtRest(r))
      && (d == Refused <==> cid < 1)
      && (!Index(i) ==> r == t)
      && (d == TornDown <==> IsBusy(t, i) && t.holders[i] <= 1)
      && (d == TornDown ==> BusySet(r) == BusySet(t) - {i, Partner(t, i) - 1} && r.holders[i] == 0)
      && (Index(i) && d != TornDown ==>
            r.slots == t.slots && r.holders == t.holders[i := if t.holders[i] > 0 then t.holders[i] - 1 else 0])
  {
    if Index(cid - 1) {
      var t1 := Release(t, cid - 1);
      forall j | 0 <= j < MAX_PDP ensures PairedAt(t1, j) { assert PairedAt(t, j); }
      assert Coherent(t1) && (AtRest(t) ==> AtRest(t1));
      PutBoth(t1, cid - 1);
      assert BusySet(t1) == BusySet(t);
    }
  }
}
