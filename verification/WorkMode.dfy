/** Work modes of the two SIMs and the choice of the primary SIM: what requests,
    capability swaps and the error-15 repair may do to them.  */
module WorkMode {
  import opened Sims

  // Modem configurations, in the order the code compares them.
  const WG_G := 0
  const WG_WG := 1
  const LG_G := 2
  const LWG_G := 3
  const LWG_WG := 4
  const LWG_LWG := 5
  const NRLWG_LWG := 6

  // Work modes.
  const TD_LTE := 1
  const LTE_FDD := 2
  const TD_LTE_AND_LTE_FDD := 3
  const LTE_FDD_AND_W_AND_GSM := 4
  const TD_LTE_AND_W_AND_GSM := 5
  const TD_LTE_AND_LTE_FDD_AND_W_AND_GSM := 6
  const TD_LTE_AND_TD_AND_GSM := 7
  const TD_LTE_AND_LTE_FDD_AND_TD_AND_GSM := 8
  const TD_LTE_AND_LTE_FDD_AND_W_AND_TD_AND_GSM := 9
  const GSM_ONLY := 10
  const WCDMA_ONLY := 11
  const TD_ONLY := 12
  const TD_AND_GSM := 13
  const WCDMA_AND_GSM := 14
  const PRIMARY_GSM_ONLY := 15
  const PRIMARY_WCDMA_ONLY := 18
  const PRIMARY_TD_AND_WCDMA := 20
  const TD_LTE_AND_LTE_FDD_AND_GSM := 21
  const PRIMARY_WCDMA_AND_GSM := 22
  const TD_LTE_AND_LTE_FDD_WCDMA := 24
  const EVDO_AND_CDMA := 64
  const CDMA_ONLY := 65
  const EVDO_ONLY := 66
  const LTE_AND_ALL_3G_2G := 73
  const NR_ONLY := 128
  const NR_AND_LTE := 131
  const NR_AND_LTE_AND_WCDMA_AND_GSM := 134
  const NONE := 254
  const ALL_3G_2G := 255

  predicate IsPrimaryCardWorkMode(mode: int) {
    mode != GSM_ONLY && mode != WCDMA_ONLY && mode != WCDMA_AND_GSM && mode != ALL_3G_2G && mode != NONE
  }

  predicate IsNrWorkMode(mode: int) {
    mode == NR_ONLY || mode == NR_AND_LTE || mode == NR_AND_LTE_AND_WCDMA_AND_GSM
  }

  /** Configurations with one data-capable SIM and one GSM SIM. */
  predicate GsmSecond(config: int) {
    config == LWG_G || config == WG_G || config == LG_G
  }

  // ----- which work mode a request asks for -----

  /** Engineering-mode requests, counted from NETWORK_MODE_BASE; 0 if unknown. */
  function EngineeringType(config: int, primary: bool, request: int): int {
    match request
    case 1 => TD_LTE
    case 2 => LTE_FDD
    case 3 => TD_LTE_AND_LTE_FDD
    case 4 => LTE_FDD_AND_W_AND_GSM
    case 5 => TD_LTE_AND_W_AND_GSM
    case 6 => TD_LTE_AND_LTE_FDD_AND_W_AND_GSM
    case 7 => TD_LTE_AND_TD_AND_GSM
    case 8 => TD_LTE_AND_LTE_FDD_AND_TD_AND_GSM
    case 9 => TD_LTE_AND_LTE_FDD_AND_W_AND_TD_AND_GSM
    case 10 => GsmType(config, primary)
    case 11 => WcdmaType(config, primary)
    case 12 => TD_ONLY
    case 13 => TD_AND_GSM
    case 14 =>
      if config == LWG_WG then if primary then PRIMARY_WCDMA_AND_GSM else ALL_3G_2G
      else if config == WG_WG && primary then PRIMARY_WCDMA_AND_GSM
      else WCDMA_AND_GSM
    case 15 =>
      if config == LWG_WG && primary then PRIMARY_TD_AND_WCDMA else ALL_3G_2G
    case 16 => TD_LTE_AND_LTE_FDD_AND_GSM
    case 17 => LTE_AND_ALL_3G_2G
    case 19 => NR_ONLY
    case 20 => NR_AND_LTE
    case 21 => NR_AND_LTE_AND_WCDMA_AND_GSM
    case 22 => EVDO_AND_CDMA
    case 23 => CDMA_ONLY
    case 24 => EVDO_ONLY
    case _ => 0
  }

  function GsmType(config: int, primary: bool): int {
    if config < LWG_LWG && primary then PRIMARY_GSM_ONLY else GSM_ONLY
  }

  function WcdmaType(config: int, primary: bool): int {
    if (config == LWG_WG || config == WG_WG) && primary then PRIMARY_WCDMA_ONLY else WCDMA_ONLY
  }

  /** Framework requests; `multi` is the product's own multi-mode setting. */
  function FrameworkType(config: int, primary: bool, multi: int, request: int): int {
    match request
    case 9 => multi
    case 34 => multi
    case 0 =>
      if config == LWG_WG then if primary then PRIMARY_TD_AND_WCDMA else ALL_3G_2G
      else if config == WG_WG then if primary then PRIMARY_WCDMA_AND_GSM else WCDMA_AND_GSM
      else if multi == TD_LTE_AND_LTE_FDD_AND_W_AND_TD_AND_GSM || multi == LTE_AND_ALL_3G_2G then ALL_3G_2G
      else if multi == TD_LTE_AND_LTE_FDD_AND_W_AND_GSM then WCDMA_AND_GSM
      else if multi == TD_LTE_AND_TD_AND_GSM then TD_AND_GSM
      else multi
    case 1 => GsmType(config, primary)
    case 11 =>
      if config == WG_WG || config == WG_G then 0
      else if multi == LTE_AND_ALL_3G_2G || multi == TD_LTE_AND_LTE_FDD_AND_W_AND_TD_AND_GSM
           || multi == TD_LTE_AND_LTE_FDD_AND_W_AND_GSM || multi == TD_LTE_AND_LTE_FDD_AND_GSM
      then TD_LTE_AND_LTE_FDD
      else if multi == TD_LTE_AND_TD_AND_GSM then TD_LTE
      else multi
    case 2 => WcdmaType(config, primary)
    case 12 => TD_LTE_AND_LTE_FDD_WCDMA
    case 21 => ALL_3G_2G
    case 22 => LTE_AND_ALL_3G_2G
    case 26 => NR_AND_LTE_AND_WCDMA_AND_GSM
    case _ => 0
  }

  // ----- the state and what changes it -----

  /** `saved` is the persisted pair of work modes. */
  datatype ModesRecord = Modes(config: int, multiSim: Sim, mode: seq<int>, saved: seq<int>)

  type Modes = m: ModesRecord | |m.mode| == 2 && |m.saved| == 2 witness Modes(0, 0, [10, 10], [10, 10])

  datatype NetRequest = NetRequest(sim: Sim, calling: bool, engineering: bool, request: int, multi: int, accepted: bool)

  function RequestedType(m: Modes, r: NetRequest): int {
    if r.engineering then EngineeringType(m.config, r.sim == m.multiSim, r.request)
    else FrameworkType(m.config, r.sim == m.multiSim, r.multi, r.request)
  }

  /** The request is answered with success but not carried out. */
  predicate NotForThisSim(m: Modes, sim: Sim, ty: int) {
    if GsmSecond(m.config) then m.mode[sim] == NONE || m.mode[sim] == GSM_ONLY
    else if m.config == LWG_WG then m.multiSim != sim && IsPrimaryCardWorkMode(ty)
    else m.config == NRLWG_LWG && m.multiSim != sim && IsNrWorkMode(ty)
  }

  predicate CarriedOut(m: Modes, r: NetRequest) {
    var ty := RequestedType(m, r);
    !r.calling && ty != 0 && !NotForThisSim(m, r.sim, ty) && ty != m.mode[r.sim] && r.accepted
  }

  function SetNetType(m: Modes, r: NetRequest): Modes {
    if CarriedOut(m, r)
    then var modes := m.mode[r.sim := RequestedType(m, r)]; m.(mode := modes, saved := modes)
    else m
  }

  /** setWorkMode: exchange the two modes. */
  function Swap(m: Modes): Modes {
    m.(mode := [m.mode[1], m.mode[0]], saved := [m.mode[1], m.mode[0]])
  }

  /** A capability APPLY; `isMax` says that the SIM asks for the larger capability. */
  function Apply(m: Modes, sim: Sim, isMax: bool): Modes {
    if isMax == (m.multiSim == sim) then m else Swap(m.(multiSim := 1 - m.multiSim))
  }

  function Repair(m: Modes): Modes {
    Swap(m.(multiSim := 1 - m.multiSim))
  }

  /** initWorkMode: reload the persisted modes and demote the second SIM if both
      would be primary-capable.  */
  function Demote(m: Modes): int {
    if GsmSecond(m.config) && m.saved[0] != GSM_ONLY && m.saved[1] != GSM_ONLY then GSM_ONLY
    else if m.config == LWG_WG && IsPrimaryCardWorkMode(m.saved[0]) && IsPrimaryCardWorkMode(m.saved[1]) then ALL_3G_2G
    else m.saved[1 - m.multiSim]
  }

  function InitWorkMode(m: Modes): Modes {
    var modes := m.saved[1 - m.multiSim := Demote(m)];
    m.(mode := modes, saved := modes)
  }

  /** One round of initPrimarySim's loop. */
  function ReconsiderPrimary(m: Modes, sim: Sim): Modes {
    if GsmSecond(m.config) then
      if m.mode[sim] == GSM_ONLY && m.multiSim == sim then m.(multiSim := 1 - sim) else m
    else if m.config == LWG_WG then
      if !IsPrimaryCardWorkMode(m.mode[sim]) && m.multiSim == sim then m.(multiSim := 1 - sim) else m
    else if m.config == NRLWG_LWG then
      if IsNrWorkMode(m.mode[sim]) && m.multiSim != sim then m.(multiSim := sim) else m
    else m
  }

  function InitPrimarySim(m: Modes): Modes {
    ReconsiderPrimary(ReconsiderPrimary(InitWorkMode(m), 0), 1)
  }

  datatype Event =
    | SetType(r: NetRequest)
    | ApplyCapability(sim: Sim, isMax: bool)
    | RadioPowerOn(error15: bool)
    | SaveDataCard(sim: Sim)

  function Step(m: Modes, e: Event): Modes {
    match e
    case SetType(r) => SetNetType(m, r)
    case ApplyCapability(sim, isMax) => Apply(m, sim, isMax)
    case RadioPowerOn(error15) => if error15 then Repair(InitWorkMode(m)) else InitWorkMode(m)
    case SaveDataCard(sim) => if m.config == LWG_LWG then m.(multiSim := sim) else m
  }

  function Run(m: Modes, es: seq<Event>): Modes
    decreases |es|
  {
    if es == [] then m else Run(Step(m, es[0]), es[1..])
  }

  // ----- safety of the second SIM -----

  /** The SIM that is not primary never has a mode reserved for the primary one. */
  ghost predicate SecondSimSafe(m: Modes) {
    var second := m.mode[1 - m.multiSim];
    && (GsmSecond(m.config) ==> second == GSM_ONLY)
    && (m.config == LWG_WG ==> !IsPrimaryCardWorkMode(second))
    && (m.config == NRLWG_LWG ==> !IsNrWorkMode(second))
  }

  ghost predicate Synced(m: Modes) {
    m.saved == m.mode
  }

  /** Initialisation makes the second SIM safe, if and only if a 5G product was not
      left with both SIMs in a 5G mode.  */
  lemma {:induction false} InitMakesSafe(m: Modes)
    ensures Synced(InitPrimarySim(m))
    ensures SecondSimSafe(InitPrimarySim(m))
       <==> !(m.config == NRLWG_LWG && IsNrWorkMode(m.saved[0]) && IsNrWorkMode(m.saved[1]))
  {
    var m1 := InitWorkMode(m);
    var m2 := ReconsiderPrimary(m1, 0);
    assert m2.mode == m1.mode && m2.saved == m1.mode;
  }

  /** A capability apply and the repair move the modes along with the primary role. */
  lemma {:induction false} SwapFollowsPrimary(m: Modes, sim: Sim, isMax: bool)
    ensures forall r :: r == Apply(m, sim, isMax) || r == Repair(m) ==>
      r.mode[r.multiSim] == m.mode[m.multiSim] && r.mode[1 - r.multiSim] == m.mode[1 - m.multiSim]
    ensures Apply(m, sim, isMax).multiSim == if isMax then sim else 1 - sim
  {
  }

  /** Reloading synced, safe modes changes nothing. */
  lemma {:induction false} ReloadIsIdle(m: Modes)
    requires SecondSimSafe(m) && Synced(m)
    ensures InitWorkMode(m) == m
  {
    assert m.saved[1 - m.multiSim := m.saved[1 - m.multiSim]] == m.saved;
  }

  lemma {:induction false} StepKeepsSafe(m: Modes, e: Event)
    requires SecondSimSafe(m) && Synced(m)
    ensures SecondSimSafe(Step(m, e)) && Synced(Step(m, e)) && Step(m, e).config == m.config
  {
    ReloadIsIdle(m);
  }

  /** What every event does to synced modes, safe before or not. */
  ghost predicate Carries(m: Modes, e: Event, r: Modes) {
    r == Step(m, e) && (SecondSimSafe(m) ==> SecondSimSafe(r))
  }

  lemma {:induction false} StepCarries(m: Modes, e: Event)
    requires Synced(m)
    ensures Synced(Step(m, e)) && Carries(m, e, Step(m, e))
  {
    if SecondSimSafe(m) { StepKeepsSafe(m, e); }
  }

  /** No run of net-type requests, capability applies, radio power cycles with or
      without the repair, and data-card changes makes the second SIM unsafe.  */
  lemma {:induction false} RunKeepsSafe(m: Modes, es: seq<Event>)
    requires SecondSimSafe(m) && Synced(m)
    ensures SecondSimSafe(Run(m, es)) && Synced(Run(m, es))
    decreases |es|
  {
    if es != [] {
      StepKeepsSafe(m, es[0]);
      RunKeepsSafe(Step(m, es[0]), es[1..]);
    }
  }

  /** From the persisted settings on. */
  lemma {:induction false} SafeFromStart(m: Modes, es: seq<Event>)
    requires !(m.config == NRLWG_LWG && IsNrWorkMode(m.saved[0]) && IsNrWorkMode(m.saved[1]))
    ensures SecondSimSafe(Run(InitPrimarySim(m), es)) && Synced(Run(InitPrimarySim(m), es))
  {
    InitMakesSafe(m);
    RunKeepsSafe(InitPrimarySim(m), es);
  }

  /** A product with a GSM second SIM that once has both SIMs at GSM_ONLY stays
      there: every later request is answered with success and ignored.  */
  lemma {:induction false} GsmOnlyIsForever(m: Modes, es: seq<Event>)
    requires GsmSecond(m.config) && m.mode == [GSM_ONLY, GSM_ONLY] && Synced(m)
    ensures Run(m, es).mode == [GSM_ONLY, GSM_ONLY]
    decreases |es|
  {
    if es != [] {
      ReloadIsIdle(m);
      assert Step(m, es[0]).mode == [GSM_ONLY, GSM_ONLY];
      GsmOnlyIsForever(Step(m, es[0]), es[1..]);
    }
  }

  // ----- the variables updated in place -----

  class WorkModes {
    const config: int
    var multiSim: Sim
    const mode: array<int>
    var saved: seq<int>

    ghost predicate Sized()
      reads this
    {
      mode.Length == 2 && |saved| == 2
    }

    /** The persisted modes are those in use. */
    ghost predicate Valid()
      reads this, mode
    {
      Sized() && Synced(View())
    }

    ghost function View(): Modes
      requires Sized()
      reads this, mode
    {
      Modes(config, multiSim, mode[..], saved)
    }

    constructor (config: int, primary: Sim, saved0: int, saved1: int)
      ensures Valid() && fresh(mode)
      ensures View() == InitPrimarySim(Modes(config, primary, [0, 0], [saved0, saved1]))
      ensures SecondSimSafe(View()) <==> !(config == NRLWG_LWG && IsNrWorkMode(saved0) && IsNrWorkMode(saved1))
    {
      this.config := config;
      multiSim := primary;
      mode := new int[2](_ => 0);
      saved := [saved0, saved1];
      new;
      InitMakesSafe(Modes(config, primary, [0, 0], [saved0, saved1]));
      assert View() == Modes(config, primary, [0, 0], [saved0, saved1]);
      LoadWorkModes();
      for sim := 0 to 2
        invariant Sized() && fresh(mode)
        invariant sim <= 1 ==> View() == if sim == 0 then InitWorkMode(Modes(config, primary, [0, 0], [saved0, saved1]))
                               else ReconsiderPrimary(InitWorkMode(Modes(config, primary, [0, 0], [saved0, saved1])), 0)
        invariant sim == 2 ==> View() == InitPrimarySim(Modes(config, primary, [0, 0], [saved0, saved1]))
      {
        if GsmSecond(config) {
          if mode[sim] == GSM_ONLY && multiSim == sim {
            multiSim := 1 - sim;
          }
        } else if config == LWG_WG {
          if !IsPrimaryCardWorkMode(mode[sim]) && multiSim == sim {
            multiSim := 1 - sim;
          }
        } else if config == NRLWG_LWG {
          if IsNrWorkMode(mode[sim]) && multiSim != sim {
            multiSim := sim;
          }
        }
      }
    }

    /** initWorkMode */
    method LoadWorkModes()
      requires Sized()
      modifies this, mode
      ensures Sized() && View() == InitWorkMode(old(View()))
    {
      for sim := 0 to 2
        invariant |saved| == 2 && saved == old(saved) && multiSim == old(multiSim)
        invariant mode[..sim] == saved[..sim]
      {
        mode[sim] := saved[sim];
      }
      assert mode[..] == saved;
      var first, second := mode[0], mode[1];
      if GsmSecond(config) {
        if first != GSM_ONLY && second != GSM_ONLY {
          if multiSim == 0 { second := GSM_ONLY; } else { first := GSM_ONLY; }
        }
      } else if config == LWG_WG {
        if IsPrimaryCardWorkMode(first) && IsPrimaryCardWorkMode(second) {
          if multiSim == 0 { second := ALL_3G_2G; } else { first := ALL_3G_2G; }
        }
      }
      if first != mode[0] || second != mode[1] {
        mode[0] := first;
        mode[1] := second;
        saved := [first, second];
      }
      assert mode[..] == [first, second];
    }

    method SetWorkMode()
      requires Sized()
      modifies this, mode
      ensures Sized() && View() == Swap(old(View()))
    {
      var single := 1 - multiSim;
      var m := mode[single];
      mode[single] := mode[multiSim];
      mode[multiSim] := m;
      saved := [mode[0], mode[1]];
      assert mode[..] == saved;
    }

    method RequestSetPreferredNetType(r: NetRequest) returns (done: bool)
      requires Valid()
      modifies this, mode
      ensures Valid() && Carries(old(View()), SetType(r), View()) && done == CarriedOut(old(View()), r)
    {
      StepCarries(View(), SetType(r));
      if r.calling {
        return false;
      }
      var ty := if r.engineering then EngineeringType(config, r.sim == multiSim, r.request)
                else FrameworkType(config, r.sim == multiSim, r.multi, r.request);
      if ty == 0 {
        return false;
      }
      var workMode := mode[r.sim];
      if GsmSecond(config) {
        if workMode == NONE || workMode == GSM_ONLY {
          return false;
        }
      } else if config == LWG_WG {
        if multiSim != r.sim && IsPrimaryCardWorkMode(ty) {
          return false;
        }
      } else if config == NRLWG_LWG {
        if multiSim != r.sim && IsNrWorkMode(ty) {
          return false;
        }
      }
      if ty == workMode || !r.accepted {
        return false;
      }
      var text := if r.sim == 0 then [ty, mode[1]] else [mode[0], ty];
      mode[r.sim] := ty;
      saved := text;
      assert mode[..] == saved;
      done := true;
    }

    method ApplySetRadioCapability(sim: Sim, isMax: bool) returns (changed: bool)
      requires Valid()
      modifies this, mode
      ensures Valid() && Carries(old(View()), ApplyCapability(sim, isMax), View())
      ensures mode[multiSim] == old(mode[multiSim]) && changed == (multiSim != old(multiSim))
    {
      StepCarries(View(), ApplyCapability(sim, isMax));
      if isMax {
        if multiSim != sim {
          multiSim := sim;
        } else {
          return false;
        }
      } else if multiSim == sim {
        multiSim := 1 - sim;
      } else {
        return false;
      }
      SetWorkMode();
      changed := true;
    }

    method RadioPower(error15: bool)
      requires Valid()
      modifies this, mode
      ensures Valid() && Carries(old(View()), RadioPowerOn(error15), View())
    {
      StepCarries(View(), RadioPowerOn(error15));
      LoadWorkModes();
      if error15 {
        if multiSim == 0 {
          multiSim := 1;
        } else if multiSim == 1 {
          multiSim := 0;
        }
        SetWorkMode();
      }
    }

    method SaveDataCardProp(sim: Sim)
      requires Valid()
      modifies `multiSim
      ensures Valid() && Carries(old(View()), SaveDataCard(sim), View())
    {
      StepCarries(View(), SaveDataCard(sim));
      if config == LWG_LWG {
        multiSim := sim;
      }
    }
  }
}
