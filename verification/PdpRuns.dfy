/** Whole runs of data-call requests and releases on one SIM.  */
module PdpRuns {
  import opened Sims
  import opened PdpTable
  import opened PdpSetup
  import opened PdpOutcome
  import opened PdpHolders

  /** Everything that changes one SIM's slots, one request or indication at a time. */
  datatype Event =
    | SetupCall(q: Request, replies: nat -> Reply, list: ListReply)
    | OpenChannel(pdn: PdnInfo, q: Request, replies: nat -> Reply, list: ListReply)
    | DeactivateCall(cid: int)
    | ContextEnded(cid: int, channelOpen: bool)
    | CidReported(cid: int, active: bool)
    | ReleaseBusy
    | Detach
    | ModemReset

  /** A BIP channel reuses the first BUSY slot whose active context matches. */
  function Reusable(p: PdnInfo, t: Table, from: nat := 0): (i: int)
    requires from <= MAX_PDP
    decreases MAX_PDP - from
    ensures i == -1 || (from <= i < MAX_PDP && t.slots[i].state == Busy)
  {
    if from == MAX_PDP || p.active <= 0 then -1
    else if p.nCid[from] == from + 1 && t.slots[from].state == Busy && p.apnMatches[from] then from
    else Reusable(p, t, from + 1)
  }

  /** The lowest index at or above `from` of a BUSY slot whose active context has its
      own number and the APN, or -1 if there is none.  */
  lemma {:induction false} ReusableIsFirst(p: PdnInfo, t: Table, from: nat)
    requires from <= MAX_PDP
    ensures var i := Reusable(p, t, from);
      && (i >= 0 ==> p.active > 0 && p.nCid[i] == i + 1 && p.apnMatches[i])
      && (forall k :: from <= k < (if i < 0 then MAX_PDP else i) ==>
            p.active <= 0 || p.nCid[k] != k + 1 || !p.apnMatches[k] || t.slots[k].state != Busy)
    decreases MAX_PDP - from
  {
    if from < MAX_PDP { ReusableIsFirst(p, t, from + 1); }
  }

  function PutAll(t: Table, busyOnly: bool, from: nat := 0): Table
    requires from <= MAX_PDP
    decreases MAX_PDP - from
  {
    if from == MAX_PDP then t
    else PutAll(if !busyOnly || t.slots[from].state == Busy then Put(t, from) else t, busyOnly, from + 1)
  }

  /** Detaching releases what is BUSY or has an id. */
  function DetachAll(t: Table, from: nat := 0): Table
    requires from <= MAX_PDP
    decreases MAX_PDP - from
  {
    if from == MAX_PDP then t
    else DetachAll(if t.slots[from].state == Busy || t.slots[from].cid > 0 then Put(t, from) else t, from + 1)
  }

  function SetupAndComplete(t: Table, q: Request, replies: nat -> Reply, l: ListReply): Table {
    var o := Setup(t, q, replies);
    match o.exit
    case Failed => o.t
    case Up(i) => Complete(o.t, i, l).0
    case UpByFallback(i) => Complete(o.t, i, l).0
  }

  function Ended(t: Table, cid: int, channelOpen: bool): Table {
    var i := cid - 1;
    if !IsBusy(t, i) then t
    else
      var r := if channelOpen then Put(Put(t, Partner(t, i) - 1), i) else t;
      r.(holders := r.holders[i := 0])
  }

  function Step(t: Table, e: Event): Table
  {
    match e
    case SetupCall(q, replies, l) => SetupAndComplete(t, q, replies, l)
    case OpenChannel(pdn, q, replies, l) =>
      var i := Reusable(pdn, t);
      if i >= 0 then Hold(t, i) else SetupAndComplete(t, q, replies, l)
    case DeactivateCall(cid) => Deactivate(t, cid).0
    case ContextEnded(cid, channelOpen) => Ended(t, cid, channelOpen)
    case CidReported(cid, active) => UpdateCid(t, cid, if active then 1 else 0)
    case ReleaseBusy => PutAll(t, true)
    case Detach => DetachAll(t)
    case ModemReset => PutAll(t, false)
  }

  function Run(t: Table, es: seq<Event>): Table
    decreases |es|
  {
    if es == [] then t else Run(Step(t, es[0]), es[1..])
  }

  /** The last answers to the setup of this event, if it has one, are a network
      reject and then a working IPv4 activation.  */
  ghost predicate FallsBack(t: Table, e: Event) {
    match e
    case SetupCall(q, replies, _) => LastAnswerFallsBack(t, q, replies)
    case OpenChannel(pdn, q, replies, _) => Reusable(pdn, t) < 0 && LastAnswerFallsBack(t, q, replies)
    case _ => false
  }

  ghost predicate NeverFallsBack(t: Table, es: seq<Event>)
    decreases |es|
  {
    es == [] || (!FallsBack(t, es[0]) && NeverFallsBack(Step(t, es[0]), es[1..]))
  }

  /** The modem never answers a setup of this event like that. */
  ghost predicate NeverRejects(e: Event) {
    match e
    case SetupCall(_, replies, _) => forall k :: !RejectedThenIpv4Up(replies(k))
    case OpenChannel(_, _, replies, _) => forall k :: !RejectedThenIpv4Up(replies(k))
    case _ => true
  }

  lemma {:induction false} NeverRejectsNeverFallsBack(t: Table, es: seq<Event>)
    requires forall e <- es :: NeverRejects(e)
    ensures NeverFallsBack(t, es)
    decreases |es|
  {
    if es != [] {
      assert es[0] in es;
      match es[0] {
        case SetupCall(q, replies, _) => FallbackAnswered(t, q, replies);
        case OpenChannel(_, q, replies, _) => FallbackAnswered(t, q, replies);
        case _ =>
      }
      NeverRejectsNeverFallsBack(Step(t, es[0]), es[1..]);
    }
  }

  // ----- pairing: every run -----

  lemma {:induction false} CountsDoNotMatter(t: Table, h: seq<int>)
    requires |h| == MAX_PDP && Paired(t)
    ensures Paired(t.(holders := h))
  {
    forall j | 0 <= j < MAX_PDP ensures PairedAt(t.(holders := h), j) { assert PairedAt(t, j); }
  }

  lemma {:induction false} PutAllKeepsPaired(t: Table, busyOnly: bool, from: nat)
    requires from <= MAX_PDP && Paired(t)
    ensures Paired(PutAll(t, busyOnly, from))
    decreases MAX_PDP - from
  {
    if from < MAX_PDP {
      PutKeepsPaired(t, from);
      PutAllKeepsPaired(if !busyOnly || t.slots[from].state == Busy then Put(t, from) else t,
                        busyOnly, from + 1);
    }
  }

  lemma {:induction false} DetachAllKeepsPaired(t: Table, from: nat)
    requires from <= MAX_PDP && Paired(t)
    ensures Paired(DetachAll(t, from))
    decreases MAX_PDP - from
  {
    if from < MAX_PDP {
      PutKeepsPaired(t, from);
      DetachAllKeepsPaired(if t.slots[from].state == Busy || t.slots[from].cid > 0 then Put(t, from) else t, from + 1);
    }
  }

  lemma {:induction false} PutBothKeepsPaired(t: Table, p: int, i: int)
    requires Paired(t)
    ensures Paired(Put(Put(t, p), i))
  {
    PutKeepsPaired(t, p);
    PutKeepsPaired(Put(t, p), i);
  }

  lemma {:induction false} SetupAndCompleteKeepsPaired(t: Table, q: Request, replies: nat -> Reply, l: ListReply)
    requires Paired(t)
    ensures Paired(SetupAndComplete(t, q, replies, l))
  {
    SetupKeepsPaired(t, q, replies, 0, 0, 0);
    var o := Setup(t, q, replies);
    if !o.exit.Failed? { PutBothKeepsPaired(o.t, Partner(o.t, o.exit.index) - 1, o.exit.index); }
  }

  lemma {:induction false} StepKeepsPaired(t: Table, e: Event)
    requires Paired(t)
    ensures Paired(Step(t, e))
  {
    match e
    case SetupCall(q, replies, l) => SetupAndCompleteKeepsPaired(t, q, replies, l);
    case OpenChannel(pdn, q, replies, l) =>
      var i := Reusable(pdn, t);
      if i >= 0 { CountsDoNotMatter(t, Hold(t, i).holders); }
      else { SetupAndCompleteKeepsPaired(t, q, replies, l); }
    case DeactivateCall(cid) =>
      if Index(cid - 1) {
        var t1 := Release(t, cid - 1);
        CountsDoNotMatter(t, t1.holders);
        PutBothKeepsPaired(t1, Partner(t1, cid - 1) - 1, cid - 1);
      }
    case ContextEnded(cid, channelOpen) =>
      var i := cid - 1;
      if Index(i) {
        PutBothKeepsPaired(t, Partner(t, i) - 1, i);
        var r := if channelOpen then Put(Put(t, Partner(t, i) - 1), i) else t;
        CountsDoNotMatter(r, r.holders[i := 0]);
      }
    case CidReported(cid, active) => CidsDoNotMatter(t, Step(t, e));
    case ReleaseBusy => PutAllKeepsPaired(t, true, 0);
    case Detach => DetachAllKeepsPaired(t, 0);
    case ModemReset => PutAllKeepsPaired(t, false, 0);
  }

  /** In every run, network-reject fallbacks included, the pairing stays a
      symmetric, irreflexive partial involution on BUSY slots with exactly one
      primary end.  */
  lemma {:induction false} RunKeepsPaired(t: Table, es: seq<Event>)
    requires Paired(t)
    ensures Paired(Run(t, es))
    decreases |es|
  {
    if es != [] {
      StepKeepsPaired(t, es[0]);
      RunKeepsPaired(Step(t, es[0]), es[1..]);
    }
  }

  // ----- holders: runs without the fallback -----

  lemma {:induction false} PutAllCoherent(t: Table, busyOnly: bool, from: nat)
    requires from <= MAX_PDP && Coherent(t)
    ensures Coherent(PutAll(t, busyOnly, from)) && (AtRest(t) ==> AtRest(PutAll(t, busyOnly, from)))
    ensures BusySet(PutAll(t, busyOnly, from)) == set i | i in BusySet(t) && i < from
    ensures forall i :: 0 <= i < MAX_PDP ==>
      PutAll(t, busyOnly, from).holders[i] == if i < from then t.holders[i] else 0
    decreases MAX_PDP - from
  {
    if from < MAX_PDP {
      PutKeeps(t, from);
      PutKeepsPaired(t, from);
      PutAllCoherent(if !busyOnly || t.slots[from].state == Busy then Put(t, from) else t,
                     busyOnly, from + 1);
    }
  }

  lemma {:induction false} DetachAllCoherent(t: Table, from: nat)
    requires from <= MAX_PDP && Coherent(t)
    ensures Coherent(DetachAll(t, from)) && (AtRest(t) ==> AtRest(DetachAll(t, from)))
    ensures BusySet(DetachAll(t, from)) == set i | i in BusySet(t) && i < from
    ensures forall i :: 0 <= i < MAX_PDP ==>
      DetachAll(t, from).holders[i] == if i < from then t.holders[i] else 0
    decreases MAX_PDP - from
  {
    if from < MAX_PDP {
      PutKeeps(t, from);
      PutKeepsPaired(t, from);
      DetachAllCoherent(if t.slots[from].state == Busy || t.slots[from].cid > 0 then Put(t, from) else t, from + 1);
    }
  }

  lemma {:induction false} SetupAndCompleteCoherent(t: Table, q: Request, replies: nat -> Reply, l: ListReply)
    requires Coherent(t) && !LastAnswerFallsBack(t, q, replies)
    ensures Coherent(SetupAndComplete(t, q, replies, l))
    ensures AtRest(t) ==> AtRest(SetupAndComplete(t, q, replies, l))
  {
    SetupCounts(t, q, replies);
    FallbackAnswered(t, q, replies);
    var o := Setup(t, q, replies);
    if o.exit.Up? { PutBoth(o.t, o.exit.index); }
    if AtRest(t) { var j := SetupOutcome(t, q, replies); }
  }

  lemma {:induction false} EndedCoherent(t: Table, cid: int, channelOpen: bool)
    requires Coherent(t)
    ensures Coherent(Ended(t, cid, channelOpen)) && (AtRest(t) ==> AtRest(Ended(t, cid, channelOpen)))
  {
    var i := cid - 1;
    if Index(i) {
      PutBoth(t, i);
      var r := if channelOpen then Put(Put(t, Partner(t, i) - 1), i) else t;
      CountsDoNotMatter(r, r.holders[i := 0]);
    }
  }

  /** The indication gives an id to a slot that no call has allocated. */
  predicate AssignsIdle(t: Table, e: Event) {
    e.CidReported? && e.active && Index(e.cid - 1) && t.slots[e.cid - 1].state == Idle
  }

  lemma {:induction false} ReportRests(t: Table, cid: int, active: bool)
    requires Coherent(t)
    ensures var e := CidReported(cid, active);
      Coherent(Step(t, e)) && (AtRest(t) ==> (AtRest(Step(t, e)) <==> !AssignsIdle(t, e)))
  {
    var r := Step(t, CidReported(cid, active));
    CidsDoNotMatter(t, r);
    if AtRest(t) && Index(cid - 1) {
      assert forall i :: 0 <= i < MAX_PDP && i != cid - 1 ==> r.slots[i] == t.slots[i];
      if AssignsIdle(t, CidReported(cid, active)) {
        assert r.slots[cid - 1].state == Idle && r.slots[cid - 1].cid == cid;
        assert !IdleBlank(r);
      } else if t.slots[cid - 1].state == Idle {
        assert r.slots == t.slots;
      }
    }
  }

  /** Every event but a fallback success keeps the table coherent: counts are
      positive on BUSY slots only. A table at rest stays at rest if and only if the
      event does not give an id to an idle slot.  */
  lemma {:induction false} StepHolds(t: Table, e: Event)
    requires Coherent(t) && !FallsBack(t, e)
    ensures Coherent(Step(t, e))
    ensures AtRest(t) ==> (AtRest(Step(t, e)) <==> !AssignsIdle(t, e))
  {
    match e
    case SetupCall(q, replies, l) => SetupAndCompleteCoherent(t, q, replies, l);
    case OpenChannel(pdn, q, replies, l) =>
      var i := Reusable(pdn, t);
      if i >= 0 { CountsDoNotMatter(t, Hold(t, i).holders); }
      else { SetupAndCompleteCoherent(t, q, replies, l); }
    case DeactivateCall(cid) => DeactivateOutcome(t, cid);
    case ContextEnded(cid, channelOpen) => EndedCoherent(t, cid, channelOpen);
    case CidReported(cid, active) => ReportRests(t, cid, active);
    case ReleaseBusy => PutAllCoherent(t, true, 0);
    case Detach => DetachAllCoherent(t, 0);
    case ModemReset => PutAllCoherent(t, false, 0);
  }

  /** In every run in which no setup comes up by the fallback, ids reported by the
      modem included, the pairing holds and only BUSY slots have holders.  */
  lemma {:induction false} RunHolds(t: Table, es: seq<Event>)
    requires Coherent(t) && NeverFallsBack(t, es)
    ensures Coherent(Run(t, es))
    decreases |es|
  {
    if es != [] {
      StepHolds(t, es[0]);
      RunHolds(Step(t, es[0]), es[1..]);
    }
  }

  ghost predicate NeverAssignsIdle(t: Table, es: seq<Event>)
    decreases |es|
  {
    es == [] || (!AssignsIdle(t, es[0]) && NeverAssignsIdle(Step(t, es[0]), es[1..]))
  }

  /** If moreover no id is given to an idle slot, idle slots stay blank and none
      stays UNUSABLE.  */
  lemma {:induction false} RunRests(t: Table, es: seq<Event>)
    requires AtRest(t) && NeverFallsBack(t, es) && NeverAssignsIdle(t, es)
    ensures AtRest(Run(t, es))
    decreases |es|
  {
    if es != [] {
      StepHolds(t, es[0]);
      RunRests(Step(t, es[0]), es[1..]);
    }
  }

  // ----- the count is the number of clients -----

  /** Clients of each slot as seen from outside: a setup whose token was
      completed with success or a reuse adds one, a deactivation removes one.  */
  type Ledger = l: seq<nat> | |l| == MAX_PDP witness seq(MAX_PDP, _ => 0)

  function Settle(l: Ledger, t: Table, e: Event): Ledger
  {
    match e
    case SetupCall(q, replies, list) => SettleSetup(l, t, q, replies, list)
    case OpenChannel(pdn, q, replies, list) =>
      var i := Reusable(pdn, t);
      if i >= 0 then l[i := l[i] + 1] else SettleSetup(l, t, q, replies, list)
    case DeactivateCall(cid) => if Index(cid - 1) && l[cid - 1] > 0 then l[cid - 1 := l[cid - 1] - 1] else l
    case _ => l
  }

  function SettleSetup(l: Ledger, t: Table, q: Request, replies: nat -> Reply, list: ListReply): Ledger {
    match Setup(t, q, replies).exit
    case Up(i) => if Index(i) && list == ContextActive then l[i := l[i] + 1] else l
    case _ => l
  }

  ghost predicate Balanced(l: Ledger, t: Table) {
    l == t.holders
  }

  /** The request reports failure although its slot stays up with a holder. */
  ghost predicate LosesHolder(t: Table, q: Request, replies: nat -> Reply, list: ListReply) {
    Setup(t, q, replies).exit.Up? && list == QueryFailed
  }

  /** Slot i has holders other than a caller who is about to release it. */
  ghost predicate PartnerHeld(t: Table, i: int)
    requires Index(i)
  {
    Index(Partner(t, i) - 1) && t.holders[Partner(t, i) - 1] > 0
  }

  /** The event drops a holder behind its back, or invents one. */
  ghost predicate Unbalances(t: Table, e: Event)
  {
    match e
    case SetupCall(q, replies, list) => LosesHolder(t, q, replies, list)
    case OpenChannel(pdn, q, replies, list) => Reusable(pdn, t) < 0 && LosesHolder(t, q, replies, list)
    case DeactivateCall(cid) => IsBusy(t, cid - 1) && t.holders[cid - 1] <= 1 && PartnerHeld(t, cid - 1)
    case ContextEnded(cid, channelOpen) =>
      IsBusy(t, cid - 1) && (t.holders[cid - 1] > 0 || (channelOpen && PartnerHeld(t, cid - 1)))
    case CidReported(_, _) => false
    case ReleaseBusy => !forall i :: 0 <= i < MAX_PDP ==> t.holders[i] == 0
    case Detach => !forall i :: 0 <= i < MAX_PDP ==> t.holders[i] == 0
    case ModemReset => !forall i :: 0 <= i < MAX_PDP ==> t.holders[i] == 0
  }

  lemma {:induction false} PutBothHolders(t: Table, i: int)
    requires Index(i)
    ensures var p := Partner(t, i) - 1;
      Put(Put(t, p), i).holders == (if Index(p) then t.holders[p := 0] else t.holders)[i := 0]
  {
  }

  lemma {:induction false} SetupBalances(l: Ledger, t: Table, q: Request, replies: nat -> Reply, list: ListReply)
    requires Coherent(t) && Balanced(l, t) && !LastAnswerFallsBack(t, q, replies)
    ensures Balanced(SettleSetup(l, t, q, replies, list), SetupAndComplete(t, q, replies, list))
       <==> !LosesHolder(t, q, replies, list)
  {
    SetupCounts(t, q, replies);
    FallbackAnswered(t, q, replies);
    var o := Setup(t, q, replies);
    if o.exit.Up? {
      GrownBalances(l, t, o.t, o.exit.index, list);
    }
  }

  lemma {:induction false} GrownBalances(l: Ledger, t0: Table, t: Table, i: int, list: ListReply)
    requires Coherent(t0) && Balanced(l, t0) && Index(i) && t0.slots[i].state == Idle
    requires t.holders == t0.holders[i := 1] && PartnerWasIdle(t0, t, i)
    ensures Complete(t, i, list).0.holders == (if list == ContextActive then l[i := l[i] + 1] else l)
       <==> list != QueryFailed
  {
    IdleSlot(t0, i);
    PutBothHolders(t, i);
    var p := Partner(t, i) - 1;
    if Index(p) {
      IdleSlot(t0, p);
      assert t0.holders[i := 1][p := 0][i := 0] == t0.holders;
    }
    assert t0.holders[i := 1][i := 0] == t0.holders;
  }

  lemma {:induction false} DeactivateBalances(l: Ledger, t: Table, cid: int)
    requires Coherent(t) && Balanced(l, t)
    ensures Balanced(Settle(l, t, DeactivateCall(cid)), Deactivate(t, cid).0)
       <==> !Unbalances(t, DeactivateCall(cid))
  {
    if !Index(cid - 1) {
      return;
    }
    var i, p := cid - 1, Partner(t, cid - 1) - 1;
    var t1 := Release(t, i);
    assert PairedAt(t, i);
    forall j | 0 <= j < MAX_PDP ensures PairedAt(t1, j) { assert PairedAt(t, j); }
    if IsBusy(t, i) && t.holders[i] <= 1 {
      PutBothHolders(t1, i);
      assert t1.holders == t.holders[i := 0];
      if Index(p) {
        assert t.holders[i := 0][p := 0][i := 0][p] == 0;
        assert t.holders[i := 0][p] == t.holders[p];
      }
    }
  }

  lemma {:induction false} EndedBalances(l: Ledger, t: Table, cid: int, channelOpen: bool)
    requires Coherent(t) && Balanced(l, t)
    ensures Balanced(l, Ended(t, cid, channelOpen)) <==> !Unbalances(t, ContextEnded(cid, channelOpen))
  {
    if !Index(cid - 1) {
      return;
    }
    var i, p := cid - 1, Partner(t, cid - 1) - 1;
    assert PairedAt(t, i);
    PutBothHolders(t, i);
    var r := Ended(t, cid, channelOpen);
    if IsBusy(t, i) {
      assert r.holders[i] == 0;
      if channelOpen && Index(p) { assert r.holders[p] == 0; }
      assert forall k :: 0 <= k < MAX_PDP && k != i && k != p ==> r.holders[k] == t.holders[k];
    }
  }

  lemma {:induction false} ReleaseBalances(l: Ledger, t: Table, busyOnly: bool)
    requires Coherent(t) && Balanced(l, t)
    ensures Balanced(l, PutAll(t, busyOnly)) <==> forall i :: 0 <= i < MAX_PDP ==> t.holders[i] == 0
  {
    PutAllCoherent(t, busyOnly, 0);
  }

  /** The count of every slot stays equal to the number of its clients, if and
      only if the event does not unbalance it.  */
  lemma {:induction false} StepBalances(l: Ledger, t: Table, e: Event)
    requires Coherent(t) && !FallsBack(t, e) && Balanced(l, t)
    ensures Balanced(Settle(l, t, e), Step(t, e)) <==> !Unbalances(t, e)
  {
    match e
    case SetupCall(q, replies, list) => SetupBalances(l, t, q, replies, list);
    case OpenChannel(pdn, q, replies, list) =>
      if Reusable(pdn, t) < 0 { SetupBalances(l, t, q, replies, list); }
    case DeactivateCall(cid) => DeactivateBalances(l, t, cid);
    case ContextEnded(cid, channelOpen) => EndedBalances(l, t, cid, channelOpen);
    case CidReported(_, _) =>
    case ReleaseBusy => ReleaseBalances(l, t, true);
    case Detach => DetachAllCoherent(t, 0);
    case ModemReset => ReleaseBalances(l, t, false);
  }

  ghost predicate NeverUnbalances(t: Table, es: seq<Event>)
    decreases |es|
  {
    es == [] || (!Unbalances(t, es[0]) && NeverUnbalances(Step(t, es[0]), es[1..]))
  }

  function SettleAll(l: Ledger, t: Table, es: seq<Event>): Ledger
    decreases |es|
  {
    if es == [] then l else SettleAll(Settle(l, t, es[0]), Step(t, es[0]), es[1..])
  }

  /** Over whole runs, the count equals the number of outstanding clients. */
  lemma {:induction false} RunBalances(l: Ledger, t: Table, es: seq<Event>)
    requires Coherent(t) && Balanced(l, t) && NeverFallsBack(t, es) && NeverUnbalances(t, es)
    ensures Balanced(SettleAll(l, t, es), Run(t, es))
    decreases |es|
  {
    if es != [] {
      StepHolds(t, es[0]);
      StepBalances(l, t, es[0]);
      RunBalances(Settle(l, t, es[0]), Step(t, es[0]), es[1..]);
    }
  }
}
