/** Setting up and deactivating a data call on one SIM, as functions of the
    modem's answers, and what they guarantee.  */
module PdpSetup {
  import opened Sims
  import opened PdpTable

  const MAX_RETRIES := 5
  const MAX_DELAYED_RETRIES := 6

  datatype PdpType = IP | IPV6 | IPV4V6 | IPV4_AND_IPV6

  /** Result codes of one activation. */
  datatype Activation =
    | FallbackFailed
    | ActivationFailed
    | Success
    | NeedRetry
    | NeedFallback
    | NeedAnotherCid
    | NeedRetryAfterDelay

  datatype DataReply = DataOk | CmeError(cause: int) | OtherError

  /** Answers to one AT+CGDCONT / AT+CGDATA exchange; `dualStack` is the address
      type the context ended up with.  */
  datatype ActivationReply = ActivationReply(contextRejected: bool, data: DataReply, dualStack: bool)

  /** All answers of one pass through the retry loop: the query of active
      contexts, the primary activation, whether the network asks for the other
      IP version as well, the second activation, and the IPv4 activation of the
      "network reject" fallback.  */
  datatype Reply = Reply(pdn: PdnInfo, first: ActivationReply, wantsOtherIp: bool,
                         second: ActivationReply, ipv4: ActivationReply)

  /** What does not change during one request. */
  datatype Request = Request(pdpType: PdpType, modemDataAllowed: bool)

  datatype Exit = Failed | Up(index: int) | UpByFallback(index: int)

  datatype Outcome = Outcome(t: Table, exit: Exit, attempts: nat)

  /** Meaning of the modem's CME causes (isBoots off). */
  function ErrorHandling(d: DataReply): Activation {
    match d
    case DataOk => Success
    case OtherError => ActivationFailed
    case CmeError(cause) =>
      if cause == 288 then NeedRetry
      else if cause == 128 then NeedFallback
      else if cause == 253 then NeedAnotherCid
      else if cause == 26 || cause == 47 then NeedRetryAfterDelay
      else ActivationFailed
  }

  /** Activate slot i; `primaryCid` > 0 makes it the second half of a pair. Every
      failure has already released the slot.  */
  function Activate(t: Table, i: int, primaryCid: int, a: ActivationReply): (Table, Activation)
    requires Index(i)
  {
    if a.contextRejected then (Put(t, i), ActivationFailed)
    else if ErrorHandling(a.data) != Success then (Put(t, i), ErrorHandling(a.data))
    else if primaryCid > 0 then
      if a.dualStack then (Pair(t, primaryCid - 1, i), Success)
      else (Put(t, i), FallbackFailed)
    else (UpdateCid(t, i + 1, 1), Success)
  }

  /** A context for the IP version that the first activation did not provide. */
  function CheckFallBack(t: Table, ty: PdpType, i: int, r: Reply): Table
    requires Index(i)
  {
    if ty != IPV4_AND_IPV6 && !(ty == IPV4V6 && r.wantsOtherIp) then t
    else
      var (t1, j) := Get(r.pdn, t);
      if j < 0 then t1
      else Activate(t1, j, if ty == IPV4V6 then i + 1 else 0, r.second).0
  }

  /** After a network reject: activate IPv4 on slot i again, which is no longer
      allocated, and IPv6 on a new slot.  */
  function Ipv4Ipv6Fallback(t: Table, i: int, r: Reply): (Table, bool)
    requires Index(i)
  {
    if r.ipv4.contextRejected || ErrorHandling(r.ipv4.data) != Success then (t, false)
    else
      var t1 := UpdateCid(t, i + 1, 1);
      var (t2, j) := Get(r.pdn, t1);
      (if j < 0 then t2 else Activate(t2, j, 0, r.second).0, true)
  }

  function Acquire(t: Table, p: PdnInfo): (Table, int) {
    var (t1, i) := GetByIndex(t, Matched(p));
    if i >= 0 then (t1, i) else Get(p, t)
  }

  datatype Pass =
    | Again(t: Table, retries: nat, delays: nat)
    | GiveUp(t: Table, index: int)
    | Done(t: Table, index: int, byFallback: bool)

  /** One pass through the retry loop. */
  function Attempt(t: Table, q: Request, r: Reply, retries: nat, delays: nat): (p: Pass) {
    var (t1, i) := Acquire(t, r.pdn);
    if i < 0 then GiveUp(t1, -1)
    else
      var (t2, code) := Activate(t1, i, 0, r.first);
      match code
      case NeedRetry =>
        if retries < MAX_RETRIES then Again(t2, retries + 1, delays) else GiveUp(t2, i)
      case NeedRetryAfterDelay =>
        if q.modemDataAllowed || delays >= MAX_DELAYED_RETRIES then GiveUp(t2, i)
        else Again(t2, retries, delays + 1)
      case NeedFallback =>
        var (t3, ok) := Ipv4Ipv6Fallback(t2, i, r);
        if ok then Done(t3, i, true) else GiveUp(t3, i)
      case NeedAnotherCid => Again(MarkUnusable(t2, i), retries, delays)
      case Success => Done(CheckFallBack(t2, q.pdpType, i, r), i, false)
      case _ => GiveUp(t2, i)
  }

  function Abandon(t: Table, i: int): Table {
    PutUnusable(Put(Put(t, Partner(t, i) - 1), i))
  }

  function Hold(t: Table, i: int): Table
    requires Index(i)
  {
    t.(holders := t.holders[i := t.holders[i] + 1])
  }

  /** Remaining retries of each kind plus slots not yet given up. */
  function Measure(t: Table, retries: nat, delays: nat): int {
    (MAX_RETRIES - retries) + (MAX_DELAYED_RETRIES - delays) + Candidates(t.slots)
  }

  /** The retry loop, from pass number `k` on. */
  function SetupFrom(t: Table, q: Request, replies: nat -> Reply, k: nat, retries: nat, delays: nat): Outcome
    requires retries <= MAX_RETRIES && delays <= MAX_DELAYED_RETRIES
    decreases Measure(t, retries, delays)
  {
    AttemptDecreases(t, q, replies(k), retries, delays);
    match Attempt(t, q, replies(k), retries, delays)
    case Again(t1, retries1, delays1) => SetupFrom(t1, q, replies, k + 1, retries1, delays1)
    case GiveUp(t1, i) => Outcome(Abandon(t1, i), Failed, if i < 0 then k else k + 1)
    case Done(t1, i, byFallback) =>
      Outcome(Hold(PutUnusable(t1), i), if byFallback then UpByFallback(i) else Up(i), k + 1)
  }

  /** A whole requestSetupDataCall, up to the final list query. */
  function Setup(t: Table, q: Request, replies: nat -> Reply): Outcome {
    SetupFrom(t, q, replies, 0, 0, 0)
  }

  /** How AT+CGACT? after a setup went. */
  datatype ListReply = QueryFailed | ContextActive | ContextInactive

  /** The list query that completes the token: the table, and whether the token
      is completed with success.  */
  function Complete(t: Table, i: int, l: ListReply): (Table, bool) {
    match l
    case QueryFailed => (t, false)
    case ContextActive => (t, true)
    case ContextInactive => (Put(Put(t, Partner(t, i) - 1), i), false)
  }

  datatype Deactivation = Refused | AlreadyDown | StillHeld | TornDown

  function Release(t: Table, i: int): Table
    requires Index(i)
  {
    if t.holders[i] > 0 then t.(holders := t.holders[i := t.holders[i] - 1]) else t
  }

  /** An id without a slot counts as a context that is down already. */
  function Deactivate(t: Table, cid: int): (Table, Deactivation) {
    if cid < 1 then (t, Refused)
    else if cid > MAX_PDP then (t, AlreadyDown)
    else
      var t1 := Release(t, cid - 1);
      if t1.slots[cid - 1].state == Idle then (t1, AlreadyDown)
      else if t1.holders[cid - 1] != 0 then (t1, StillHeld)
      else (Put(Put(t1, Partner(t1, cid - 1) - 1), cid - 1), TornDown)
  }

  // ----- termination -----

  lemma {:induction false} AcquireTakesCandidate(t: Table, p: PdnInfo)
    ensures var (t1, i) := Acquire(t, p);
            if i < 0 then t1 == t else Index(i) && Candidate(t.slots[i]) && t1 == Take(t, i)
  {
  }

  /** A failed activation undoes the acquisition as far as the loop is concerned. */
  lemma {:induction false} FailedActivation(t: Table, i: int, a: ActivationReply)
    requires Index(i) && Candidate(t.slots[i])
    requires Activate(Take(t, i), i, 0, a).1 != Success
    ensures Activate(Take(t, i), i, 0, a).0 == Put(Take(t, i), i)
    ensures Put(Take(t, i), i).slots[i] == FREE
    ensures Candidates(Put(Take(t, i), i).slots) == Candidates(t.slots)
    ensures BusySet(Put(Take(t, i), i)) == BusySet(t)
    ensures BusySet(MarkUnusable(Put(Take(t, i), i), i)) == BusySet(t)
  {
    CandidatesTake(t, i);
    CandidatesPut(Take(t, i), i);
    TakeKeeps(t, i);
    PutKeeps(Take(t, i), i);
    CidsDoNotMatter(Put(Take(t, i), i), MarkUnusable(Put(Take(t, i), i), i));
  }

  lemma {:induction false} AttemptDecreases(t: Table, q: Request, r: Reply, retries: nat, delays: nat)
    requires retries <= MAX_RETRIES && delays <= MAX_DELAYED_RETRIES
    ensures var p := Attempt(t, q, r, retries, delays);
      && (p.Again? ==> p.retries <= MAX_RETRIES && p.delays <= MAX_DELAYED_RETRIES
                       && Measure(p.t, p.retries, p.delays) == Measure(t, retries, delays) - 1
                       && Candidates(t.slots) > 0)
      && (p.Done? ==> Index(p.index) && Candidates(t.slots) > 0)
      && (p.GiveUp? ==> p.index == -1 || (Index(p.index) && Candidates(t.slots) > 0))
  {
    AcquireTakesCandidate(t, r.pdn);
    var i := Acquire(t, r.pdn).1;
    if i >= 0 {
      CandidatesTake(t, i);
      if Activate(Take(t, i), i, 0, r.first).1 != Success {
        FailedActivation(t, i, r.first);
        CandidatesMark(Put(Take(t, i), i), i);
      }
    }
  }

  lemma {:induction false} AttemptsBoundedFrom(t: Table, q: Request, replies: nat -> Reply,
                                               k: nat, retries: nat, delays: nat)
    requires retries <= MAX_RETRIES && delays <= MAX_DELAYED_RETRIES
    ensures SetupFrom(t, q, replies, k, retries, delays).attempts <= k + Measure(t, retries, delays)
    decreases Measure(t, retries, delays)
  {
    AttemptDecreases(t, q, replies(k), retries, delays);
    match Attempt(t, q, replies(k), retries, delays)
    case Again(t1, retries1, delays1) => AttemptsBoundedFrom(t1, q, replies, k + 1, retries1, delays1);
    case GiveUp(_, _) =>
    case Done(_, _, _) =>
  }

  /** Whatever the modem answers, a setup makes at most 5 + 6 primary activations
      beyond the number of slots it may try; never more than 17.  */
  lemma {:induction false} AttemptsBounded(t: Table, q: Request, replies: nat -> Reply)
    ensures Setup(t, q, replies).attempts <= MAX_RETRIES + MAX_DELAYED_RETRIES + Candidates(t.slots) <= 17
  {
    AttemptsBoundedFrom(t, q, replies, 0, 0, 0);
  }

  // ----- the bound is reached -----

  const EMPTY: Table := Table([FREE, FREE, FREE, FREE, FREE, FREE], [0, 0, 0, 0, 0, 0])
  const NO_PDN: PdnInfo :=
    PdnInfo(false, 0, [-1, -1, -1, -1, -1, -1], [false, false, false, false, false, false])

  /** Five times "retry", six times "retry later", then "another cid" for ever. */
  function WorstReplies(k: nat): Reply {
    var cause := if k < MAX_RETRIES then 288
                 else if k < MAX_RETRIES + MAX_DELAYED_RETRIES then 26
                 else 253;
    var a := ActivationReply(false, CmeError(cause), false);
    Reply(NO_PDN, a, false, a, a)
  }

  ghost predicate CandidatesBlank(t: Table) {
    forall i :: 0 <= i < MAX_PDP && Candidate(t.slots[i]) ==> t.slots[i] == FREE && t.holders[i] == 0
  }

  lemma {:induction false} CandidateExists(s: seq<Pdp>)
    ensures Candidates(s) > 0 <==> exists i :: 0 <= i < |s| && Candidate(s[i])
  {
    if s != [] {
      CandidateExists(s[1..]);
      assert Candidate(s[0]) || forall i :: 0 < i < |s| ==> s[i] == s[1..][i - 1];
    }
  }

  /** A failed activation of a blank slot leaves no trace. */
  lemma {:induction false} BlankFailure(t: Table, i: int)
    requires Index(i) && t.slots[i] == FREE && t.holders[i] == 0
    ensures Put(Take(t, i), i) == t
  {
    assert Put(Take(t, i), i).slots == t.slots;
  }

  lemma {:induction false} WorstAttempt(t: Table, q: Request, k: nat, retries: nat, delays: nat) returns (i: int)
    requires CandidatesBlank(t) && !q.modemDataAllowed
    requires WorstCounters(k, retries, delays)
    ensures Candidates(t.slots) == 0 ==> Attempt(t, q, WorstReplies(k), retries, delays) == GiveUp(t, -1)
    ensures Candidates(t.slots) > 0 ==>
      && Index(i) && t.slots[i] == FREE
      && Attempt(t, q, WorstReplies(k), retries, delays)
         == if k < MAX_RETRIES then Again(t, retries + 1, delays)
            else if k < MAX_RETRIES + MAX_DELAYED_RETRIES then Again(t, retries, delays + 1)
            else Again(MarkUnusable(t, i), retries, delays)
  {
    var r := WorstReplies(k);
    CandidateExists(t.slots);
    AcquireTakesCandidate(t, r.pdn);
    i := Acquire(t, r.pdn).1;
    if Candidates(t.slots) > 0 {
      var c :| 0 <= c < MAX_PDP && Candidate(t.slots[c]);
      assert Acquirable(r.pdn, t, c);
      FailedActivation(t, i, r.first);
      BlankFailure(t, i);
    }
  }

  ghost predicate WorstCounters(k: nat, retries: nat, delays: nat) {
    && retries == (if k < MAX_RETRIES then k else MAX_RETRIES)
    && delays == (if k < MAX_RETRIES then 0
                  else if k < MAX_RETRIES + MAX_DELAYED_RETRIES then k - MAX_RETRIES
                  else MAX_DELAYED_RETRIES)
  }

  lemma {:induction false} WorstCaseFrom(t: Table, q: Request, k: nat, retries: nat, delays: nat)
    requires CandidatesBlank(t) && !q.modemDataAllowed
    requires WorstCounters(k, retries, delays)
    ensures SetupFrom(t, q, WorstReplies, k, retries, delays).attempts
         == if Candidates(t.slots) == 0 then k else k + Measure(t, retries, delays)
    decreases Measure(t, retries, delays)
  {
    var i := WorstAttempt(t, q, k, retries, delays);
    AttemptDecreases(t, q, WorstReplies(k), retries, delays);
    match Attempt(t, q, WorstReplies(k), retries, delays)
    case Again(t1, retries1, delays1) =>
      WorstCaseFrom(t1, q, k + 1, retries1, delays1);
    case GiveUp(_, _) =>
  }

  /** The bound of AttemptsBounded is exact for every table with a blank slot to try. */
  lemma {:induction false} AttemptsAttained(t: Table, q: Request)
    requires CandidatesBlank(t) && Candidates(t.slots) > 0 && !q.modemDataAllowed
    ensures Setup(t, q, WorstReplies).attempts
         == MAX_RETRIES + MAX_DELAYED_RETRIES + Candidates(t.slots)
  {
    WorstCaseFrom(t, q, 0, 0, 0);
  }

  // ----- what a setup leaves behind -----

  lemma {:induction false} GetTakes(p: PdnInfo, t: Table)
    ensures var (t1, i) := Get(p, t);
            if i < 0 then t1 == t else Index(i) && t.slots[i].state == Idle && t.slots[i].cid == -1 && t1 == Take(t, i)
  {
  }

  /** What activating an allocated, unpaired slot does to the pairing and to the set of BUSY slots. */
  lemma {:induction false} ActivateKeeps(t: Table, i: int, primaryCid: int, a: ActivationReply)
    requires IsBusy(t, i) && t.slots[i].secondary == -1
    requires primaryCid > 0 ==> IsBusy(t, primaryCid - 1) && primaryCid - 1 != i
                                && t.slots[primaryCid - 1].secondary == -1
    ensures var (r, code) := Activate(t, i, primaryCid, a);
      && (Paired(t) ==> Paired(r))
      && BusySet(r) == (if code == Success then BusySet(t) else BusySet(t) - {i})
  {
    PutKeeps(t, i);
    if Paired(t) { PutKeepsPaired(t, i); }
    CidsDoNotMatter(t, UpdateCid(t, i + 1, 1));
    if primaryCid > 0 { PairKeeps(t, primaryCid - 1, i); }
  }

  /** Getting a slot for a second activation and trying it. */
  lemma {:induction false} SecondActivation(t: Table, p: PdnInfo, primaryCid: int, a: ActivationReply)
    requires Paired(t)
    requires primaryCid > 0 ==> IsBusy(t, primaryCid - 1) && t.slots[primaryCid - 1].secondary == -1
    ensures var (t1, j) := Get(p, t);
      j >= 0 ==> Paired(Activate(t1, j, primaryCid, a).0)
                 && BusySet(t) <= BusySet(Activate(t1, j, primaryCid, a).0) <= BusySet(t) + {j}
  {
    GetTakes(p, t);
    var (t1, j) := Get(p, t);
    if j >= 0 {
      TakeKeeps(t, j);
      assert PairedAt(t, j);
      ActivateKeeps(t1, j, primaryCid, a);
    }
  }

  lemma {:induction false} CheckFallBackKeepsPaired(t: Table, ty: PdpType, i: int, r: Reply)
    requires Paired(t) && IsBusy(t, i) && t.slots[i].secondary == -1
    ensures Paired(CheckFallBack(t, ty, i, r))
  {
    GetTakes(r.pdn, t);
    SecondActivation(t, r.pdn, if ty == IPV4V6 then i + 1 else 0, r.second);
  }

  lemma {:induction false} FallbackKeepsPaired(t: Table, i: int, r: Reply)
    requires Index(i) && Paired(t)
    ensures Paired(Ipv4Ipv6Fallback(t, i, r).0)
  {
    var t1 := UpdateCid(t, i + 1, 1);
    CidsDoNotMatter(t, t1);
    GetTakes(r.pdn, t1);
    SecondActivation(t1, r.pdn, 0, r.second);
  }

  lemma {:induction false} AttemptKeepsPaired(t: Table, q: Request, r: Reply, retries: nat, delays: nat)
    requires Paired(t)
    ensures Paired(Attempt(t, q, r, retries, delays).t)
  {
    AcquireTakesCandidate(t, r.pdn);
    var i := Acquire(t, r.pdn).1;
    if i >= 0 {
      TakeKeeps(t, i);
      assert PairedAt(t, i);
      ActivateKeeps(Take(t, i), i, 0, r.first);
      var (t2, code) := Activate(Take(t, i), i, 0, r.first);
      match code {
        case NeedFallback => FallbackKeepsPaired(t2, i, r);
        case NeedAnotherCid => CidsDoNotMatter(t2, MarkUnusable(t2, i));
        case Success => CheckFallBackKeepsPaired(t2, q.pdpType, i, r);
        case _ =>
      }
    }
  }

  /** Every exit of every setup keeps the fallback pairing an involution on BUSY
      slots and leaves no slot marked UNUSABLE.  */
  lemma {:induction false} SetupKeepsPaired(t: Table, q: Request, replies: nat -> Reply,
                                            k: nat, retries: nat, delays: nat)
    requires retries <= MAX_RETRIES && delays <= MAX_DELAYED_RETRIES
    requires Paired(t)
    ensures var o := SetupFrom(t, q, replies, k, retries, delays); Paired(o.t) && NoneUnusable(o.t)
    decreases Measure(t, retries, delays)
  {
    AttemptDecreases(t, q, replies(k), retries, delays);
    AttemptKeepsPaired(t, q, replies(k), retries, delays);
    match Attempt(t, q, replies(k), retries, delays)
    case Again(t1, retries1, delays1) => SetupKeepsPaired(t1, q, replies, k + 1, retries1, delays1);
    case GiveUp(t1, i) =>
      var t2 := Put(t1, Partner(t1, i) - 1);
      PutKeepsPaired(t1, Partner(t1, i) - 1);
      PutKeepsPaired(t2, i);
      CidsDoNotMatter(Put(t2, i), PutUnusable(Put(t2, i)));
    case Done(t1, i, _) =>
      var t2 := PutUnusable(t1);
      CidsDoNotMatter(t1, t2);
      forall j | 0 <= j < MAX_PDP ensures PairedAt(Hold(t2, i), j) { assert PairedAt(t2, j); }
  }

  /** A pass that is not the last successful one allocates and frees nothing. */
  lemma {:induction false} UnfinishedAttempt(t: Table, q: Request, r: Reply, retries: nat, delays: nat)
    requires !Attempt(t, q, r, retries, delays).Done?
    ensures var p := Attempt(t, q, r, retries, delays);
      && BusySet(p.t) == BusySet(t)
      && (p.GiveUp? && Index(p.index) ==> p.t.slots[p.index] == FREE)
  {
    AcquireTakesCandidate(t, r.pdn);
    var i := Acquire(t, r.pdn).1;
    if i >= 0 {
      var code := Activate(Take(t, i), i, 0, r.first).1;
      assert code != Success;
      FailedActivation(t, i, r.first);
    }
  }

  /** No setup that fails leaks a slot, from any table and whatever the modem says. */
  lemma {:induction false} FailedSetupLeaksNoSlot(t: Table, q: Request, replies: nat -> Reply,
                                                  k: nat, retries: nat, delays: nat)
    requires retries <= MAX_RETRIES && delays <= MAX_DELAYED_RETRIES
    requires SetupFrom(t, q, replies, k, retries, delays).exit == Failed
    ensures BusySet(SetupFrom(t, q, replies, k, retries, delays).t) == BusySet(t)
    decreases Measure(t, retries, delays)
  {
    AttemptDecreases(t, q, replies(k), retries, delays);
    match Attempt(t, q, replies(k), retries, delays)
    case Again(t1, retries1, delays1) =>
      UnfinishedAttempt(t, q, replies(k), retries, delays);
      FailedSetupLeaksNoSlot(t1, q, replies, k + 1, retries1, delays1);
    case GiveUp(t1, i) =>
      UnfinishedAttempt(t, q, replies(k), retries, delays);
      PutKeeps(t1, i);
      CidsDoNotMatter(Put(t1, i), PutUnusable(Put(t1, i)));
    case Done(_, _, _) =>
  }
}
