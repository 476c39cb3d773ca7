/** The temporary "default data SIM" switch over two SIMs: a data call on the SIM
    that is not allowed data moves the modem's data service to that SIM for as
    long as the call lasts.  */
module DataSwitch {
  import opened Sims
  import opened PdpTable
  import opened PdpSetup
  import opened PdpOutcome
  import opened PdpHolders
  import opened PdpRuns

  /** `dds` is the SIM the modem's data service is on (s_ddsOnModem). */
  datatype ServiceRecord = Service(sims: seq<Table>, allowed: seq<bool>, dds: int)

  type Service = s: ServiceRecord | |s.sims| == SIM_COUNT && |s.allowed| == SIM_COUNT && 0 <= s.dds < SIM_COUNT
    witness Service(seq(SIM_COUNT, _ => Table(seq(MAX_PDP, _ => FREE), seq(MAX_PDP, _ => 0))), [true, false], 0)

  /** Radio states and whether the modem keeps contexts on both SIMs
      (s_roModemConfig >= LWG_LWG) while a request runs.  */
  datatype Env = Env(radioOn0: bool, radioOn1: bool, bothSims: bool) {
    predicate RadioOn(sim: Sim) {
      if sim == 0 then radioOn0 else radioOn1
    }
  }

  datatype Op =
    | SetPreferred(dds: int, oneSim: bool, env: Env)
    | SetupRequest(sim: Sim, admitted: bool, ty: PdpType, replies: nat -> Reply, list: ListReply, env: Env)
    | DeactivateRequest(sim: Sim, index: int, env: Env)
    | BipOpen(sim: Sim, pdn: PdnInfo, ty: PdpType, replies: nat -> Reply, list: ListReply, env: Env)
    | BipClose(sim: Sim, index: int)
    | ReportedCid(sim: Sim, cid: int, active: bool)
    | RadioOff(sim: Sim)

  function With(s: Service, sim: Sim, t: Table): Service {
    s.(sims := s.sims[sim := t])
  }

  /** `forToken` tells a framework request from an internal switch. */
  function Detach(s: Service, sim: Sim, forToken: bool, env: Env): Service {
    if env.RadioOn(sim) && (!env.bothSims || forToken) then With(s, sim, DetachAll(s.sims[sim])) else s
  }

  function Attach(s: Service, sim: Sim): Service {
    s.(dds := sim)
  }

  function SwitchTo(s: Service, sim: Sim, env: Env): Service {
    Attach(Detach(s, 1 - sim, false, env), sim)
  }

  /** Switch away from `sim` again, when it is not allowed data and has it. */
  function SwitchBack(s: Service, sim: Sim, env: Env): Service {
    if !s.allowed[sim] && s.dds == sim then SwitchAway(s, sim, env) else s
  }

  function SwitchAway(s: Service, sim: Sim, env: Env): Service {
    Attach(Detach(s, sim, false, env), 1 - sim)
  }

  function RequestOf(s: Service, ty: PdpType): Request {
    Request(ty, s.allowed[s.dds])
  }

  function SetupOn(s: Service, sim: Sim, ty: PdpType, replies: nat -> Reply, l: ListReply, env: Env): Service {
    var o := Setup(s.sims[sim], RequestOf(s, ty), replies);
    var s1 := With(s, sim, o.t);
    match o.exit
    case Failed => SwitchBack(s1, sim, env)
    case Up(i) => CompleteOn(s1, sim, i, l, env)
    case UpByFallback(i) => CompleteOn(s1, sim, i, l, env)
  }

  function CompleteOn(s: Service, sim: Sim, i: int, l: ListReply, env: Env): Service {
    var s1 := With(s, sim, Complete(s.sims[sim], i, l).0);
    if l == ContextInactive then SwitchBack(s1, sim, env) else s1
  }

  /** The SIM is allowed data but the modem's data service is elsewhere. */
  predicate Misplaced(s: Service, sim: Sim) {
    sim != s.dds && s.allowed[sim]
  }

  function SwitchIfNeeded(s: Service, sim: Sim, env: Env): Service {
    if s.allowed[sim] then s else SwitchTo(s, sim, env)
  }

  function Prefer(s: Service, dds: int, oneSim: bool, env: Env): Service {
    if dds < 0 || dds >= SIM_COUNT then s
    else
      var s1 := s.(allowed := s.allowed[dds := true][1 - dds := false]);
      Attach(if oneSim then s1 else Detach(s1, 1 - dds, true, env), dds)
  }

  function DeactivateOn(s: Service, sim: Sim, index: int, env: Env): Service {
    var s1 := With(s, sim, Deactivate(s.sims[sim], index + 1).0);
    if !s.allowed[sim] && !AnyBusy(s1.sims[sim]) then SwitchAway(s1, sim, env) else s1
  }

  function Step(s: Service, op: Op): Service {
    match op
    case SetPreferred(dds, oneSim, env) => Prefer(s, dds, oneSim, env)
    case SetupRequest(sim, admitted, ty, replies, l, env) =>
      if !admitted || Misplaced(s, sim) then s
      else SetupOn(SwitchIfNeeded(s, sim, env), sim, ty, replies, l, env)
    case DeactivateRequest(sim, index, env) => DeactivateOn(s, sim, index, env)
    case BipOpen(sim, pdn, ty, replies, l, env) =>
      if !s.allowed[sim] then s
      else
        var i := Reusable(pdn, s.sims[sim]);
        if i >= 0 then With(s, sim, Hold(s.sims[sim], i)) else SetupOn(s, sim, ty, replies, l, env)
    case BipClose(sim, index) =>
      With(s, sim, Deactivate(s.sims[sim], index + 1).0)
    case ReportedCid(sim, cid, active) => With(s, sim, UpdateCid(s.sims[sim], cid, if active then 1 else 0))
    case RadioOff(sim) =>
      if s.allowed[sim] then With(s, sim, PutAll(s.sims[sim], true)) else s
  }

  function Run(s: Service, ops: seq<Op>): Service
    decreases |ops|
  {
    if ops == [] then s else Run(Step(s, ops[0]), ops[1..])
  }

  // ----- the switch is always undone -----

  /** Exactly one SIM is allowed data, and whenever the modem's data service is
      on the other one, that one has a BUSY context.  */
  ghost predicate Settled(s: Service) {
    && s.allowed[0] != s.allowed[1]
    && (s.allowed[s.dds] || AnyBusy(s.sims[s.dds]))
  }

  ghost predicate BothCoherent(s: Service) {
    Coherent(s.sims[0]) && Coherent(s.sims[1])
  }

  ghost predicate FallsBackOn(s: Service, sim: Sim, ty: PdpType, replies: nat -> Reply) {
    LastAnswerFallsBack(s.sims[sim], RequestOf(s, ty), replies)
  }

  /** The last answers to the setup of this operation are a network reject and then
      a working IPv4 activation.  */
  ghost predicate OpFallsBack(s: Service, op: Op) {
    match op
    case SetupRequest(sim, admitted, ty, replies, _, env) =>
      admitted && !Misplaced(s, sim) && FallsBackOn(SwitchIfNeeded(s, sim, env), sim, ty, replies)
    case BipOpen(sim, pdn, ty, replies, _, _) =>
      s.allowed[sim] && Reusable(pdn, s.sims[sim]) < 0 && FallsBackOn(s, sim, ty, replies)
    case _ => false
  }

  /** A BIP channel close takes down the last context on a SIM that has the data
      service only temporarily; this path never switches back.  */
  ghost predicate Strands(s: Service, op: Op) {
    op.BipClose? && Index(op.index) && op.sim == s.dds && !s.allowed[op.sim] &&
    var t := s.sims[op.sim];
    && IsBusy(t, op.index) && t.holders[op.index] <= 1
    && BusySet(t) <= {op.index, Partner(t, op.index) - 1}
  }

  lemma {:induction false} DetachCoherent(s: Service, sim: Sim, forToken: bool, env: Env)
    requires BothCoherent(s)
    ensures BothCoherent(Detach(s, sim, forToken, env))
  {
    DetachAllCoherent(s.sims[sim], 0);
  }

  lemma {:induction false} AnyBusyIsBusySet(t: Table)
    ensures AnyBusy(t) <==> BusySet(t) != {}
  {
    if AnyBusy(t) {
      var i :| 0 <= i < MAX_PDP && t.slots[i].state == Busy;
      assert i in BusySet(t);
    }
  }

  /** The data service is where a request on `sim` may leave it. */
  ghost predicate Placed(s: Service, sim: Sim) {
    s.allowed[0] != s.allowed[1] && if s.allowed[sim] then Settled(s) else s.dds == sim
  }

  lemma {:induction false} SwitchBackSettles(s: Service, sim: Sim, env: Env)
    requires BothCoherent(s) && Placed(s, sim)
    ensures BothCoherent(SwitchBack(s, sim, env)) && Settled(SwitchBack(s, sim, env))
  {
    DetachCoherent(s, sim, false, env);
  }

  lemma {:induction false} CompleteOnSettles(s: Service, sim: Sim, i: int, l: ListReply, env: Env)
    requires BothCoherent(s) && Placed(s, sim) && IsBusy(s.sims[sim], i)
    ensures BothCoherent(CompleteOn(s, sim, i, l, env)) && Settled(CompleteOn(s, sim, i, l, env))
  {
    PutBoth(s.sims[sim], i);
    var s1 := With(s, sim, Complete(s.sims[sim], i, l).0);
    if l == ContextInactive {
      SwitchBackSettles(s1, sim, env);
    } else {
      assert s1.sims == s.sims;
    }
  }

  /** Whatever way a setup ends, the data service is back on the allowed SIM or
      the call is up.  */
  lemma {:induction false} SetupOnSettles(s: Service, sim: Sim, ty: PdpType, replies: nat -> Reply, l: ListReply, env: Env)
    requires BothCoherent(s) && Placed(s, sim) && !FallsBackOn(s, sim, ty, replies)
    ensures BothCoherent(SetupOn(s, sim, ty, replies, l, env)) && Settled(SetupOn(s, sim, ty, replies, l, env))
  {
    SetupCounts(s.sims[sim], RequestOf(s, ty), replies);
    FallbackAnswered(s.sims[sim], RequestOf(s, ty), replies);
    var o := Setup(s.sims[sim], RequestOf(s, ty), replies);
    var s1 := With(s, sim, o.t);
    if o.exit.Up? {
      CompleteOnSettles(s1, sim, o.exit.index, l, env);
    } else {
      SwitchBackSettles(s1, sim, env);
    }
  }

  lemma {:induction false} SwitchIfNeededPlaces(s: Service, sim: Sim, env: Env)
    requires BothCoherent(s) && Settled(s) && !Misplaced(s, sim)
    ensures BothCoherent(SwitchIfNeeded(s, sim, env)) && Placed(SwitchIfNeeded(s, sim, env), sim)
  {
    DetachCoherent(s, 1 - sim, false, env);
  }

  lemma {:induction false} SetupRequestSettles(s: Service, sim: Sim, ty: PdpType, replies: nat -> Reply, l: ListReply, env: Env)
    requires BothCoherent(s) && Settled(s) && !Misplaced(s, sim)
    requires !FallsBackOn(SwitchIfNeeded(s, sim, env), sim, ty, replies)
    ensures var r := SetupOn(SwitchIfNeeded(s, sim, env), sim, ty, replies, l, env);
      BothCoherent(r) && Settled(r)
  {
    var s1 := SwitchIfNeeded(s, sim, env);
    SwitchIfNeededPlaces(s, sim, env);
    SetupOnSettles(s1, sim, ty, replies, l, env);
  }

  lemma {:induction false} BipOpenSettles(s: Service, op: Op)
    requires BothCoherent(s) && Settled(s) && op.BipOpen? && !OpFallsBack(s, op)
    ensures BothCoherent(Step(s, op)) && Settled(Step(s, op))
  {
    if s.allowed[op.sim] {
      var i := Reusable(op.pdn, s.sims[op.sim]);
      if i < 0 {
        SetupOnSettles(s, op.sim, op.ty, op.replies, op.list, op.env);
      } else {
        StepHolds(s.sims[op.sim], OpenChannel(op.pdn, RequestOf(s, op.ty), op.replies, op.list));
      }
    }
  }

  lemma {:induction false} SetPreferredSettles(s: Service, dds: int, oneSim: bool, env: Env)
    requires BothCoherent(s) && Settled(s)
    ensures BothCoherent(Prefer(s, dds, oneSim, env)) && Settled(Prefer(s, dds, oneSim, env))
  {
    if 0 <= dds < SIM_COUNT {
      DetachCoherent(s.(allowed := s.allowed[dds := true][1 - dds := false]), 1 - dds, true, env);
    }
  }

  lemma {:induction false} SwitchAwaySettles(s: Service, sim: Sim, env: Env)
    requires BothCoherent(s) && s.allowed[1 - sim] && !s.allowed[sim]
    ensures BothCoherent(SwitchAway(s, sim, env)) && Settled(SwitchAway(s, sim, env))
  {
    DetachCoherent(s, sim, false, env);
  }

  lemma {:induction false} DeactivateSettles(s: Service, sim: Sim, index: int, env: Env)
    requires BothCoherent(s) && Settled(s)
    ensures BothCoherent(DeactivateOn(s, sim, index, env)) && Settled(DeactivateOn(s, sim, index, env))
  {
    DeactivateOutcome(s.sims[sim], index + 1);
    var s1 := With(s, sim, Deactivate(s.sims[sim], index + 1).0);
    assert BothCoherent(s1);
    if !s.allowed[sim] && !AnyBusy(s1.sims[sim]) {
      SwitchAwaySettles(s1, sim, env);
    } else {
      assert Settled(s1);
    }
  }

  /** A close leaves no context exactly if it takes down the last one. */
  lemma {:induction false} CloseEmpties(t: Table, index: int)
    requires Coherent(t)
    ensures var r := Deactivate(t, index + 1).0;
      && Coherent(r)
      && (AnyBusy(r) <==> AnyBusy(t) && !(IsBusy(t, index) && t.holders[index] <= 1
                                           && BusySet(t) <= {index, Partner(t, index) - 1}))
  {
    var r := Deactivate(t, index + 1).0;
    DeactivateOutcome(t, index + 1);
    AnyBusyIsBusySet(t);
    AnyBusyIsBusySet(r);
    if !(IsBusy(t, index) && t.holders[index] <= 1) {
      assert BusySet(r) == BusySet(t);
    }
  }

  lemma {:induction false} BipCloseSettles(s: Service, sim: Sim, index: int)
    requires BothCoherent(s) && Settled(s)
    ensures BothCoherent(Step(s, BipClose(sim, index)))
    ensures Settled(Step(s, BipClose(sim, index))) <==> !Strands(s, BipClose(sim, index))
  {
    CloseEmpties(s.sims[sim], index);
  }

  lemma {:induction false} ReportSettles(s: Service, sim: Sim, cid: int, active: bool)
    requires BothCoherent(s) && Settled(s)
    ensures var r := Step(s, ReportedCid(sim, cid, active)); BothCoherent(r) && Settled(r)
  {
    var r := Step(s, ReportedCid(sim, cid, active));
    ReportRests(s.sims[sim], cid, active);
    CidsDoNotMatter(s.sims[sim], r.sims[sim]);
    AnyBusyIsBusySet(s.sims[sim]);
    AnyBusyIsBusySet(r.sims[sim]);
  }

  /** One operation from a settled service: it is settled again if and only if
      the operation is not such a BIP close.  */
  lemma {:induction false} StepSettles(s: Service, op: Op)
    requires BothCoherent(s) && Settled(s) && !OpFallsBack(s, op)
    ensures BothCoherent(Step(s, op))
    ensures Settled(Step(s, op)) <==> !Strands(s, op)
  {
    match op
    case SetPreferred(dds, oneSim, env) => SetPreferredSettles(s, dds, oneSim, env);
    case SetupRequest(sim, admitted, ty, replies, l, env) =>
      if admitted && !Misplaced(s, sim) { SetupRequestSettles(s, sim, ty, replies, l, env); }
    case DeactivateRequest(sim, index, env) => DeactivateSettles(s, sim, index, env);
    case BipOpen(_, _, _, _, _, _) => BipOpenSettles(s, op);
    case BipClose(sim, index) => BipCloseSettles(s, sim, index);
    case ReportedCid(sim, cid, active) => ReportSettles(s, sim, cid, active);
    case RadioOff(sim) => PutAllCoherent(s.sims[sim], true, 0);
  }

  /** What every operation does to a service, settled before or not. */
  ghost predicate Carries(s: Service, op: Op, r: Service) {
    && r == Step(s, op)
    && (BothCoherent(s) && Settled(s) && !OpFallsBack(s, op) ==>
          BothCoherent(r) && (Settled(r) <==> !Strands(s, op)))
  }

  lemma {:induction false} StepCarries(s: Service, op: Op)
    ensures Carries(s, op, Step(s, op))
  {
    if BothCoherent(s) && Settled(s) && !OpFallsBack(s, op) {
      StepSettles(s, op);
    }
  }

  ghost predicate Undisturbed(s: Service, ops: seq<Op>)
    decreases |ops|
  {
    ops == [] ||
    (!OpFallsBack(s, ops[0]) && !Strands(s, ops[0]) && Undisturbed(Step(s, ops[0]), ops[1..]))
  }

  /** Over whole runs the temporary switch is undone: whenever the data service
      is not on the allowed SIM, the other SIM has a BUSY context.  */
  lemma {:induction false} RunSettles(s: Service, ops: seq<Op>)
    requires BothCoherent(s) && Settled(s) && Undisturbed(s, ops)
    ensures BothCoherent(Run(s, ops)) && Settled(Run(s, ops))
    decreases |ops|
  {
    if ops != [] {
      StepSettles(s, ops[0]);
      RunSettles(Step(s, ops[0]), ops[1..]);
    }
  }

  // ----- the stranding close is reachable -----

  lemma {:induction false} DetachEmpties(t: Table)
    requires AtRest(t)
    ensures DetachAll(t) == EMPTY
  {
    DetachAllCoherent(t, 0);
    var r := DetachAll(t);
    forall i | 0 <= i < MAX_PDP ensures r.slots[i] == FREE && r.holders[i] == 0 {
      assert i !in BusySet(r);
    }
    assert r.slots == EMPTY.slots && r.holders == EMPTY.holders;
  }

  lemma {:induction false} ChannelOpens(env: Env)
    ensures var r := Step(Service([EMPTY, EMPTY], [false, true], 1),
                          BipOpen(1, NO_PDN, IP, Works, ContextActive, env));
      r.sims[0] == EMPTY && AtRest(r.sims[1]) && r.allowed == [false, true] && r.dds == 1
  {
    EasySetup(RequestOf(Service([EMPTY, EMPTY], [false, true], 1), IP));
  }

  lemma {:induction false} OtherSimPreferred(s: Service, env: Env)
    requires s.sims[0] == EMPTY && AtRest(s.sims[1]) && env.RadioOn(1)
    ensures Step(s, SetPreferred(0, false, env)) == Service([EMPTY, EMPTY], [true, false], 0)
  {
    DetachEmpties(s.sims[1]);
    var r := Step(s, SetPreferred(0, false, env));
    assert r.sims == [EMPTY, EMPTY] && r.allowed == [true, false];
  }

  lemma {:induction false} CallGoesUp(env: Env)
    ensures var r := Step(Service([EMPTY, EMPTY], [true, false], 0),
                          SetupRequest(1, true, IP, Works, ContextActive, env));
      && r.allowed == [true, false] && r.dds == 1 && r.sims[0] == EMPTY
      && AtRest(r.sims[1]) && BusySet(r.sims[1]) == {0} && r.sims[1].holders[0] == 1
  {
    EmptyRests();
    DetachEmpties(EMPTY);
    var s := SwitchIfNeeded(Service([EMPTY, EMPTY], [true, false], 0), 1, env);
    assert s.sims == [EMPTY, EMPTY];
    EasySetup(RequestOf(s, IP));
  }

  /** A run that strands the data service: a BIP channel opens on SIM 1, which is
      allowed data; SIM 0 becomes preferred, which releases SIM 1's contexts; the
      framework sets up a call on SIM 1; the channel closes with the same cid.  */
  lemma {:induction false} StrandingRun(bothSims: bool)
    ensures var env := Env(true, true, bothSims);
      var s := Service([EMPTY, EMPTY], [false, true], 1);
      var ops := [BipOpen(1, NO_PDN, IP, Works, ContextActive, env), SetPreferred(0, false, env),
                  SetupRequest(1, true, IP, Works, ContextActive, env), BipClose(1, 0)];
      BothCoherent(s) && Settled(s) && !Settled(Run(s, ops))
  {
    var env := Env(true, true, bothSims);
    var s0: Service := Service([EMPTY, EMPTY], [false, true], 1);
    var open := BipOpen(1, NO_PDN, IP, Works, ContextActive, env);
    var prefer := SetPreferred(0, false, env);
    var setup := SetupRequest(1, true, IP, Works, ContextActive, env);
    RunUnfolds(s0, open, prefer, setup, BipClose(1, 0));
    EmptyRests();
    ChannelOpens(env);
    OtherSimPreferred(Step(s0, open), env);
    CallGoesUp(env);
    var s3 := Step(Step(Step(s0, open), prefer), setup);
    AnyBusyIsBusySet(s3.sims[1]);
    assert 0 in BusySet(s3.sims[1]);
    BipCloseSettles(s3, 1, 0);
  }

  lemma {:induction false} RunUnfolds(s: Service, a: Op, b: Op, c: Op, d: Op)
    ensures Run(s, [a, b, c, d]) == Step(Step(Step(Step(s, a), b), c), d)
  {
    assert [a, b, c, d][1..] == [b, c, d] && [b, c, d][1..] == [c, d] && [c, d][1..] == [d] && [d][1..] == [];
    assert Run(Step(s, a), [b, c, d]) == Run(Step(Step(s, a), b), [c, d]);
    assert Run(Step(Step(s, a), b), [c, d]) == Run(Step(Step(Step(s, a), b), c), [d]);
  }
}
