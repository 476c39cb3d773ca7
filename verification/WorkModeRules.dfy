/** The rules for work modes in numbers: what a request asks for, when it is carried out,
    and what initialisation and the other events decide.  */
module WorkModeRules {
  import opened Sims
  import opened WorkMode

  // ----- what a request asks for -----

  const ENGINEERING := [1, 2, 3, 4, 5, 6, 7, 8, 9, 10, 11, 12, 13, 14, 255, 21, 73, 0, 128, 131, 134, 64, 65, 66]

  /** Engineering requests 1 to 24 ask for the modes of this table, except that the
      primary SIM has its own GSM mode (15) before LWG_LWG (5), its own WCDMA mode (18)
      and WCDMA and GSM mode (22) in WG_WG (1) and LWG_WG (4), and that the two SIMs of
      LWG_WG differ for request 15 as well.  */
  lemma {:induction false} EngineeringTable(config: int, primary: bool, request: int)
    ensures EngineeringType(config, primary, request)
         == if !(1 <= request <= 24) then 0
            else if request == 10 && primary && config < 5 then 15
            else if request == 11 && primary && config in {1, 4} then 18
            else if request == 14 && primary && config in {1, 4} then 22
            else if request == 14 && config == 4 then 255
            else if request == 15 && primary && config == 4 then 20
            else ENGINEERING[request - 1]
  {
  }

  /** Framework requests: the modes asked for by number, and those that depend on the
      product's multi-mode setting.  */
  lemma {:induction false} FrameworkTable(config: int, primary: bool, multi: int, request: int)
    ensures var ty := FrameworkType(config, primary, multi, request);
      && (request in {9, 34} ==> ty == multi)
      && (request == 0 && config == 4 ==> ty == if primary then 20 else 255)
      && (request == 0 && config == 1 ==> ty == if primary then 22 else 14)
      && (request == 0 && config !in {1, 4} ==>
            ty == if multi in {9, 73} then 255 else if multi == 6 then 14 else if multi == 7 then 13 else multi)
      && (request == 1 ==> ty == if primary && config < 5 then 15 else 10)
      && (request == 2 ==> ty == if primary && config in {1, 4} then 18 else 11)
      && (request == 11 ==> ty == if config in {0, 1} then 0
                                  else if multi in {6, 9, 21, 73} then 3 else if multi == 7 then 1 else multi)
      && (request == 12 ==> ty == 24) && (request == 21 ==> ty == 255)
      && (request == 22 ==> ty == 73) && (request == 26 ==> ty == 134)
      && (request !in {0, 1, 2, 9, 11, 12, 21, 22, 26, 34} ==> ty == 0)
  {
  }

  // ----- when it is carried out -----

  /** The mode is not for this SIM: a GSM-only SIM, or none, in a product whose second
      SIM is GSM only; a mode reserved for the primary SIM on the second SIM of LWG_WG;
      a 5G mode on the second SIM of NRLWG_LWG.  */
  predicate NotFor(m: Modes, sim: Sim, ty: int) {
    || (m.config in {0, 2, 3} && m.mode[sim] in {10, 254})
    || (m.config == 4 && sim != m.multiSim && ty !in {10, 11, 14, 254, 255})
    || (m.config == 6 && sim != m.multiSim && ty in {128, 131, 134})
  }

  /** Outside a call, a request for a known mode that is for this SIM, is not the one it
      has, and is accepted by the modem sets that mode and saves the pair; any other
      request changes nothing. The other SIM and the primary role never change.  */
  lemma {:induction false} NetTypeOutcome(m: Modes, r: NetRequest)
    ensures var ty, m' := RequestedType(m, r), Step(m, SetType(r));
      if !r.calling && ty != 0 && ty != m.mode[r.sim] && r.accepted && !NotFor(m, r.sim, ty)
      then m'.mode[r.sim] == ty && m'.mode[1 - r.sim] == m.mode[1 - r.sim] && m'.saved == m'.mode
           && m'.multiSim == m.multiSim && m'.config == m.config
      else m' == m
  {
  }

  // ----- initialisation -----

  /** Reloading takes the saved pair over, and changes it for the second SIM only: to 10 if
      that SIM is GSM only by product and neither mode is, to 255 if both modes are
      reserved for the primary SIM of LWG_WG. The pair is saved again.  */
  lemma {:induction false} ReloadOutcome(m: Modes)
    ensures var r, second := InitWorkMode(m), 1 - m.multiSim;
      && r.saved == r.mode && r.multiSim == m.multiSim && r.config == m.config
      && r.mode[m.multiSim] == m.saved[m.multiSim]
      && (m.config in {0, 2, 3} && m.saved[0] != 10 && m.saved[1] != 10 ==> r.mode[second] == 10)
      && (m.config == 4 && m.saved[0] !in {10, 11, 14, 254, 255} && m.saved[1] !in {10, 11, 14, 254, 255} ==>
            r.mode[second] == 255)
      && (r.mode[second] == m.saved[second]
          || (m.config in {0, 2, 3} && m.saved[0] != 10 && m.saved[1] != 10)
          || (m.config == 4 && m.saved[0] !in {10, 11, 14, 254, 255} && m.saved[1] !in {10, 11, 14, 254, 255}))
  {
  }

  /** The primary SIM after initialisation: the one that is not GSM only, or has a mode
      reserved for the primary, or a 5G mode; the first SIM if neither is, and for 5G
      the second if both are and the old one if neither is.  */
  lemma {:induction false} PrimaryChoice(m: Modes)
    ensures var r := InitPrimarySim(m);
      && r.mode == r.saved == InitWorkMode(m).mode && r.config == m.config
      && (m.config in {0, 2, 3} ==> r.multiSim == if r.mode[1] == 10 then 0 else 1)
      && (m.config == 4 ==> r.multiSim == if r.mode[1] in {10, 11, 14, 254, 255} then 0 else 1)
      && (m.config == 6 ==> r.multiSim == if r.mode[1] in {128, 131, 134} then 1
                                          else if r.mode[0] in {128, 131, 134} then 0 else m.multiSim)
      && (m.config !in {0, 2, 3, 4, 6} ==> r.multiSim == m.multiSim)
  {
    ReloadOutcome(m);
    var m1 := InitWorkMode(m);
    var m2 := ReconsiderPrimary(m1, 0);
    assert m2.mode == m1.mode && m2.saved == m1.mode;
  }

  // ----- the other events -----

  /** From safe, saved modes: switching the radio on changes nothing, unless the modem
      answers with error 15; then the primary role and the two modes change places. A
      capability apply does the same exactly if it moves the larger capability. Choosing
      the data SIM moves the role only, and only in LWG_LWG (5).  */
  lemma {:induction false} RoleOutcome(m: Modes, sim: Sim, flag: bool)
    requires SecondSimSafe(m) && Synced(m)
    ensures var moved := Modes(m.config, 1 - m.multiSim, [m.mode[1], m.mode[0]], [m.mode[1], m.mode[0]]);
      && Step(m, RadioPowerOn(flag)) == (if flag then moved else m)
      && Step(m, ApplyCapability(sim, flag)) == (if flag == (sim == m.multiSim) then m else moved)
      && Step(m, SaveDataCard(sim)) == Modes(m.config, if m.config == 5 then sim else m.multiSim, m.mode, m.saved)
  {
    ReloadIsIdle(m);
  }

  /** From the initial state of a product with LWG_WG: the primary SIM may take a mode
      reserved for it, the second one is told that it has, and keeps its own.  */
  lemma {:induction false} PrimaryModeRun()
    ensures var m: Modes := Modes(4, 0, [20, 255], [20, 255]);
      && Step(m, SetType(NetRequest(0, false, true, 6, 6, true))).mode == [6, 255]
      && Step(m, SetType(NetRequest(1, false, true, 6, 6, true))) == m
      && Step(m, SetType(NetRequest(1, false, true, 14, 6, true))) == m
      && Step(m, SetType(NetRequest(1, false, true, 10, 6, true))).mode == [20, 10]
  {
  }
}
