/** Where each request leaves the modem's data service, and what it does to the slots
    of both SIMs.  */
module DataMoves {
  import opened Sims
  import opened PdpTable
  import opened PdpSetup
  import opened PdpOutcome
  import opened PdpHolders
  import PdpRuns
  import opened PdpSecondContext
  import opened PdpDecisions
  import opened DataSwitch

  /** `r` is `t` after a detach, if one happens: what was BUSY or had an id is blank. */
  ghost predicate DetachedIf(happens: bool, t: Table, r: Table) {
    if happens
    then forall k :: 0 <= k < 6 ==>
           if t.slots[k].state == Busy || t.slots[k].cid > 0
           then r.slots[k] == Pdp(-1, -1, false, Idle) && r.holders[k] == 0
           else (r.slots[k] == t.slots[k] || r.slots[k] == t.slots[k].(secondary := -1)) && r.holders[k] == t.holders[k]
    else r == t
  }

  ghost predicate NoneBusy(t: Table) {
    forall k :: 0 <= k < 6 ==> t.slots[k].state == Idle
  }

  lemma {:induction false} DetachIs(s: Service, sim: Sim, forToken: bool, env: Env)
    ensures var r := Detach(s, sim, forToken, env);
      && DetachedIf(env.RadioOn(sim) && (!env.bothSims || forToken), s.sims[sim], r.sims[sim])
      && r.sims[1 - sim] == s.sims[1 - sim] && r.allowed == s.allowed && r.dds == s.dds
  {
    var t := s.sims[sim];
    forall k | 0 <= k < 6
      ensures var x := PdpRuns.DetachAll(t).slots[k];
        if t.slots[k].state == Busy || t.slots[k].cid > 0
        then x == Pdp(-1, -1, false, Idle) && PdpRuns.DetachAll(t).holders[k] == 0
        else (x == t.slots[k] || x == t.slots[k].(secondary := -1)) && PdpRuns.DetachAll(t).holders[k] == t.holders[k]
    {
      DetachExactly(t, k);
    }
  }

  // ----- releasing a context -----

  /** A release of the context with this index: torn down with its partner if it is BUSY
      with at most one holder, otherwise one holder less.  */
  ghost predicate ReleasedIn(t: Table, r: Table, index: int) {
    if !(0 <= index < 6) then r == t
    else if t.slots[index].state == Busy && t.holders[index] <= 1 then GoneWithPartner(t, r, index)
    else r == t.(holders := t.holders[index := if t.holders[index] > 0 then t.holders[index] - 1 else 0])
  }

  lemma {:induction false} DeactivateReleases(t: Table, index: int)
    requires Coherent(t)
    ensures ReleasedIn(t, Deactivate(t, index + 1).0, index)
  {
    DeactivateOutcome(t, index + 1);
    if IsBusy(t, index) && t.holders[index] <= 1 {
      var t1 := Release(t, index);
      PdpRuns.CountsDoNotMatter(t, t1.holders);
      PutBothExactly(t1, index);
    }
  }

  /** After a deactivation on a SIM that is not allowed data, the data service moves to the
      other SIM exactly if no slot is BUSY any more. Otherwise it stays, and nothing but
      the released context and its partner changes. The move detaches the SIM, unless
      contexts are kept on both or its radio is off. The other SIM is never touched.  */
  lemma {:induction false} DeactivateMoves(s: Service, sim: Sim, index: int, env: Env) returns (t: Table)
    requires Coherent(s.sims[sim])
    ensures ReleasedIn(s.sims[sim], t, index)
    ensures var r := Step(s, DeactivateRequest(sim, index, env));
      && r.allowed == s.allowed && r.sims[1 - sim] == s.sims[1 - sim]
      && (if !s.allowed[sim] && NoneBusy(t)
          then r.dds == 1 - sim && DetachedIf(env.RadioOn(sim) && !env.bothSims, t, r.sims[sim])
          else r.dds == s.dds && r.sims[sim] == t)
      && (NoneBusy(r.sims[sim]) <==> NoneBusy(t))
  {
    t := Deactivate(s.sims[sim], index + 1).0;
    DeactivateReleases(s.sims[sim], index);
    assert AnyBusy(t) <==> !NoneBusy(t);
    if !s.allowed[sim] && NoneBusy(t) { SwitchAwayMoves(With(s, sim, t), sim, env); }
  }

  lemma {:induction false} SwitchAwayMoves(s: Service, sim: Sim, env: Env)
    requires NoneBusy(s.sims[sim])
    ensures var r := SwitchAway(s, sim, env);
      && r.allowed == s.allowed && r.sims[1 - sim] == s.sims[1 - sim] && r.dds == 1 - sim
      && DetachedIf(env.RadioOn(sim) && !env.bothSims, s.sims[sim], r.sims[sim])
      && NoneBusy(r.sims[sim])
  {
    DetachIs(s, sim, false, env);
  }

  /** The move in a word: for a SIM that has the service without being allowed data. */
  lemma {:induction false} MovesExactlyWhenIdle(s: Service, sim: Sim, index: int, env: Env)
    requires Coherent(s.sims[sim]) && s.dds == sim && !s.allowed[sim]
    ensures var r := Step(s, DeactivateRequest(sim, index, env));
      r.dds == 1 - sim <==> forall k :: 0 <= k < 6 ==> r.sims[sim].slots[k].state == Idle
  {
    var t := DeactivateMoves(s, sim, index, env);
  }

  /** Closing a channel releases the context and never moves the service. */
  lemma {:induction false} BipCloseStays(s: Service, sim: Sim, index: int)
    requires Coherent(s.sims[sim])
    ensures var r := Step(s, BipClose(sim, index));
      && r.allowed == s.allowed && r.dds == s.dds && r.sims[1 - sim] == s.sims[1 - sim]
      && ReleasedIn(s.sims[sim], r.sims[sim], index)
  {
    DeactivateReleases(s.sims[sim], index);
  }

  // ----- setting up -----

  /** The table of a SIM on which a setup and its list query have run, and whether the
      context is still there for the switch that follows.  */
  function AfterSetup(t: Table, q: Request, replies: nat -> Reply, l: ListReply): (Table, bool) {
    var o := Setup(t, q, replies);
    if o.exit.Failed? then (o.t, false)
    else (Complete(o.t, o.exit.index, l).0, l != ContextInactive)
  }

  /** A setup is refused if it is not admitted, or if the SIM is allowed data but the
      service is elsewhere. On a SIM that is allowed data it moves nothing. On the other
      one it moves the service there, and back again exactly if the setup fails or the
      list query says that the context is down. Each move detaches the SIM it leaves,
      unless contexts are kept on both or its radio is off.  */
  lemma {:induction false} SetupMoves(s: Service, sim: Sim, admitted: bool, ty: PdpType, replies: nat -> Reply,
                                      l: ListReply, env: Env)
    ensures var r := Step(s, SetupRequest(sim, admitted, ty, replies, l, env));
      if !admitted || (s.allowed[sim] && s.dds != sim) then r == s
      else
        var (t, up) := AfterSetup(s.sims[sim], Request(ty, s.allowed[sim]), replies, l);
        && r.allowed == s.allowed
        && r.dds == (if s.allowed[sim] || up then sim else 1 - sim)
        && DetachedIf(!s.allowed[sim] && env.RadioOn(1 - sim) && !env.bothSims, s.sims[1 - sim], r.sims[1 - sim])
        && DetachedIf(!s.allowed[sim] && !up && env.RadioOn(sim) && !env.bothSims, t, r.sims[sim])
  {
    if admitted && !Misplaced(s, sim) {
      var s1 := SwitchIfNeeded(s, sim, env);
      DetachIs(s, 1 - sim, false, env);
      assert s1.sims[sim] == s.sims[sim] && RequestOf(s1, ty) == Request(ty, s.allowed[sim]);
      var t := AfterSetup(s.sims[sim], Request(ty, s.allowed[sim]), replies, l).0;
      SetupOnMoves(s1, sim, ty, replies, l, env);
    }
  }

  lemma {:induction false} SetupOnMoves(s: Service, sim: Sim, ty: PdpType, replies: nat -> Reply, l: ListReply, env: Env)
    requires s.dds == sim
    ensures var r := SetupOn(s, sim, ty, replies, l, env);
      var (t, up) := AfterSetup(s.sims[sim], RequestOf(s, ty), replies, l);
      && r.allowed == s.allowed && r.sims[1 - sim] == s.sims[1 - sim]
      && r.dds == (if s.allowed[sim] || up then sim else 1 - sim)
      && DetachedIf(!s.allowed[sim] && !up && env.RadioOn(sim) && !env.bothSims, t, r.sims[sim])
  {
    var t := AfterSetup(s.sims[sim], RequestOf(s, ty), replies, l).0;
    var s1 := With(s, sim, t);
    DetachIs(s1, sim, false, env);
    var o := Setup(s.sims[sim], RequestOf(s, ty), replies);
    if !o.exit.Failed? {
      assert With(With(s, sim, o.t), sim, t) == s1;
    }
  }

  /** Opening a channel is possible only on a SIM that is allowed data; it takes one more
      holder of a matching context or sets one up, and moves nothing.  */
  lemma {:induction false} BipOpenStays(s: Service, sim: Sim, pdn: PdnInfo, ty: PdpType, replies: nat -> Reply,
                                        l: ListReply, env: Env)
    ensures var r := Step(s, BipOpen(sim, pdn, ty, replies, l, env));
      && r.allowed == s.allowed && r.dds == s.dds && r.sims[1 - sim] == s.sims[1 - sim]
      && (!s.allowed[sim] ==> r == s)
      && (s.allowed[sim] ==>
            var t, i := s.sims[sim], PdpRuns.Reusable(pdn, s.sims[sim]);
            r.sims[sim] == if i >= 0 then t.(holders := t.holders[i := t.holders[i] + 1])
                           else AfterSetup(t, Request(ty, s.allowed[s.dds]), replies, l).0)
  {
  }

  // ----- the other events -----

  /** Choosing the preferred SIM allows data on it alone and moves the service there; a
      second SIM is detached if its radio is on. Any other index is refused.  */
  lemma {:induction false} PreferMoves(s: Service, dds: int, oneSim: bool, env: Env)
    ensures var r := Step(s, SetPreferred(dds, oneSim, env));
      if dds != 0 && dds != 1 then r == s
      else
        && r.allowed == [dds == 0, dds == 1] && r.dds == dds
        && r.sims[dds] == s.sims[dds]
        && DetachedIf(!oneSim && env.RadioOn(1 - dds), s.sims[1 - dds], r.sims[1 - dds])
  {
    if dds == 0 || dds == 1 {
      var s1 := s.(allowed := s.allowed[dds := true][1 - dds := false]);
      DetachIs(s1, 1 - dds, true, env);
      assert s1.allowed == [dds == 0, dds == 1];
    }
  }

  /** A reported id moves nothing. */
  lemma {:induction false} ReportStays(s: Service, sim: Sim, cid: int, active: bool)
    ensures var t := s.sims[sim];
      Step(s, ReportedCid(sim, cid, active))
      == if 1 <= cid <= 6
         then s.(sims := s.sims[sim := t.(slots := t.slots[cid - 1 := t.slots[cid - 1].(cid := if active then cid else -1)])])
         else s
  {
    CidReportedExactly(s.sims[sim], cid, active);
    assert s.sims[sim := s.sims[sim]] == s.sims;
  }

  lemma {:induction false} PutAllBusy(t: Table, from: nat, k: nat)
    requires from <= 6 && k < 6
    ensures var r := PdpRuns.PutAll(t, true, from);
      if k >= from && t.slots[k].state == Busy then r.slots[k] == FREE && r.holders[k] == 0
      else Loosened(t.slots[k], r.slots[k]) && r.holders[k] == t.holders[k]
    decreases 6 - from
  {
    if from < 6 {
      PutLoosens(t, from, k);
      PutAllBusy(if t.slots[from].state == Busy then Put(t, from) else t, from + 1, k);
    }
  }

  /** Switching the radio off releases every BUSY slot of a SIM that is allowed data,
      keeps the counts of the others, and moves nothing.  */
  lemma {:induction false} RadioOffReleases(s: Service, sim: Sim, k: nat)
    requires k < 6
    ensures var t, r := s.sims[sim], Step(s, RadioOff(sim));
      && r.allowed == s.allowed && r.dds == s.dds && r.sims[1 - sim] == s.sims[1 - sim]
      && (!s.allowed[sim] ==> r == s)
      && (s.allowed[sim] && t.slots[k].state == Busy ==>
            r.sims[sim].slots[k] == Pdp(-1, -1, false, Idle) && r.sims[sim].holders[k] == 0)
      && (t.slots[k].state == Idle ==>
            && r.sims[sim].slots[k].state == Idle && r.sims[sim].slots[k].cid == t.slots[k].cid
            && r.sims[sim].holders[k] == t.holders[k])
  {
    PutAllBusy(s.sims[sim], 0, k);
  }

  // ----- a concrete run -----

  const UP0 := Pdp(1, -1, false, Busy)
  const UP1 := Pdp(2, -1, false, Busy)
  const TWO_UP: Table := Table([UP0, UP1, FREE, FREE, FREE, FREE], [1, 1, 0, 0, 0, 0])
  const ONE_UP: Table := Table([FREE, UP1, FREE, FREE, FREE, FREE], [0, 1, 0, 0, 0, 0])

  /** SIM 1 has the service for two calls although SIM 0 is allowed data: the end of the
      first call leaves the service there, and that of the second brings it back.  */
  lemma {:induction false} TwoCallsRun(env: Env)
    ensures var two, one := Service([EMPTY, TWO_UP], [true, false], 1), Service([EMPTY, ONE_UP], [true, false], 1);
      && Step(two, DeactivateRequest(1, 0, env)) == one
      && Step(one, DeactivateRequest(1, 1, env)) == Service([EMPTY, EMPTY], [true, false], 0)
  {
    FirstCallEnds();
    SecondCallEnds(env);
    var two, one := Service([EMPTY, TWO_UP], [true, false], 1), Service([EMPTY, ONE_UP], [true, false], 1);
    var t := DeactivateMoves(two, 1, 0, env);
    assert ONE_UP.slots[1].state == Busy;
    assert Step(two, DeactivateRequest(1, 0, env)).sims == one.sims;
  }

  lemma {:induction false} FirstCallEnds()
    ensures Coherent(TWO_UP)
    ensures forall t :: ReleasedIn(TWO_UP, t, 0) ==> t == ONE_UP
  {
    SingleCoherent(TWO_UP);
    forall t | ReleasedIn(TWO_UP, t, 0) ensures t == ONE_UP {
      assert t.slots == ONE_UP.slots && t.holders == ONE_UP.holders;
    }
  }

  lemma {:induction false} SecondCallReleased()
    ensures Coherent(ONE_UP)
    ensures forall t :: ReleasedIn(ONE_UP, t, 1) ==> t == EMPTY
  {
    SingleCoherent(ONE_UP);
    forall t | ReleasedIn(ONE_UP, t, 1) ensures t == EMPTY {
      assert t.slots == EMPTY.slots && t.holders == EMPTY.holders;
    }
  }

  lemma {:induction false} DetachedEmpty(happens: bool, r: Table)
    requires DetachedIf(happens, EMPTY, r)
    ensures r == EMPTY
  {
    assert r.slots == EMPTY.slots && r.holders == EMPTY.holders;
  }

  lemma {:induction false} SecondCallEnds(env: Env)
    ensures Step(Service([EMPTY, ONE_UP], [true, false], 1), DeactivateRequest(1, 1, env))
         == Service([EMPTY, EMPTY], [true, false], 0)
  {
    SecondCallReleased();
    var s: Service := Service([EMPTY, ONE_UP], [true, false], 1);
    var t := DeactivateMoves(s, 1, 1, env);
    var r := Step(s, DeactivateRequest(1, 1, env));
    DetachedEmpty(env.RadioOn(1) && !env.bothSims, r.sims[1]);
    assert r.sims == [EMPTY, EMPTY];
  }

  lemma {:induction false} SingleCoherent(t: Table)
    requires forall k :: 0 <= k < 6 ==> t.slots[k].secondary == -1 && t.holders[k] == if t.slots[k].state == Busy then 1 else 0
    ensures Coherent(t)
  {
    forall k | 0 <= k < MAX_PDP ensures PairedAt(t, k) { }
  }
}
