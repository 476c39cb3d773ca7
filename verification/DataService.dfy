/** The data requests that work on both SIMs at once, updating the two slot tables,
    the data permissions and the modem's data SIM in place.  */
module DataService {
  import opened Sims
  import opened PdpTable
  import opened PdpSetup
  import opened PdpOutcome
  import PdpRuns
  import opened PdpManager
  import opened DataSwitch

  class DataSims {
    const sim0: Manager
    const sim1: Manager
    const allowed: array<bool>
    var dds: Sim

    ghost predicate Sized() {
      && sim0.Sized() && sim1.Sized() && allowed.Length == SIM_COUNT
      && sim0.slots != sim1.slots && sim0.holders != sim1.holders
    }

    /** Between requests the pairing of both SIMs is in order. */
    ghost predicate Valid()
      reads sim0.slots, sim0.holders, sim1.slots, sim1.holders
    {
      Sized() && sim0.Valid() && sim1.Valid()
    }

    ghost function View(): Service
      requires Sized()
      reads this, allowed, sim0.slots, sim0.holders, sim1.slots, sim1.holders
    {
      Service([sim0.View(), sim1.View()], allowed[..], dds)
    }

    constructor (allowedSim: Sim)
      ensures Valid() && fresh(allowed) && fresh(sim0.slots) && fresh(sim1.slots)
      ensures BothCoherent(View()) && Settled(View())
    {
      sim0 := new Manager();
      sim1 := new Manager();
      allowed := new bool[SIM_COUNT](i => i == allowedSim);
      dds := allowedSim;
    }

    function Of(sim: Sim): Manager {
      if sim == 0 then sim0 else sim1
    }

    method AttachGprs(sim: Sim)
      requires Valid()
      modifies `dds
      ensures Valid() && View() == Attach(old(View()), sim)
    {
      dds := sim;
    }

    method DetachGprs(sim: Sim, forToken: bool, env: Env)
      requires Valid()
      modifies sim0.slots, sim0.holders, sim1.slots, sim1.holders
      ensures Valid() && View() == Detach(old(View()), sim, forToken, env)
    {
      if !env.RadioOn(sim) {
        return;
      }
      if !env.bothSims || forToken {
        var m := Of(sim);
        m.ReleaseContexts();
      }
    }

    method SwitchData(sim: Sim, toCurrent: bool, env: Env)
      requires Valid()
      modifies `dds, sim0.slots, sim0.holders, sim1.slots, sim1.holders
      ensures Valid() && View() == if toCurrent then SwitchTo(old(View()), sim, env) else SwitchAway(old(View()), sim, env)
    {
      if toCurrent {
        DetachGprs(1 - sim, false, env);
        AttachGprs(sim);
      } else {
        DetachGprs(sim, false, env);
        AttachGprs(1 - sim);
      }
    }

    method RequestSetPreferredDataModem(target: int, oneSim: bool, env: Env)
      requires Valid()
      modifies `dds, allowed, sim0.slots, sim0.holders, sim1.slots, sim1.holders
      ensures Valid() && Carries(old(View()), SetPreferred(target, oneSim, env), View())
    {
      StepCarries(View(), SetPreferred(target, oneSim, env));
      if target < 0 || target >= SIM_COUNT {
        return;
      }
      allowed[target] := true;
      allowed[1 - target] := false;
      if !oneSim {
        DetachGprs(1 - target, true, env);
      }
      AttachGprs(target);
    }

    /** The call itself, on one SIM, and whether the data service has to go back. */
    method SetupAndComplete(sim: Sim, q: Request, replies: nat -> Reply, list: ListReply) returns (failed: bool)
      requires Valid()
      modifies sim0.slots, sim0.holders, sim1.slots, sim1.holders
      ensures Valid()
      ensures var s := old(View()); var o := Setup(s.sims[sim], q, replies);
        if o.exit.Failed? then failed && View() == With(s, sim, o.t)
        else failed == (list == ContextInactive) && View() == With(s, sim, Complete(o.t, o.exit.index, list).0)
    {
      var exit, _ := Of(sim).RequestSetupDataCall(q, replies);
      failed := exit == Failed;
      if exit != Failed {
        var ok := Of(sim).CompleteSetup(exit.index, list);
        failed := list == ContextInactive;
      }
    }

    /** requestSetupDataCall with its two ways of switching the data service back. */
    method SetupDataCall(sim: Sim, ty: PdpType, replies: nat -> Reply, list: ListReply, env: Env)
      requires Valid()
      modifies `dds, sim0.slots, sim0.holders, sim1.slots, sim1.holders
      ensures Valid() && View() == SetupOn(old(View()), sim, ty, replies, list, env)
    {
      var failed := SetupAndComplete(sim, Request(ty, allowed[dds]), replies, list);
      SetupOnIs(old(View()), sim, ty, replies, list, env);
      if failed && !allowed[sim] && sim == dds {
        SwitchData(sim, false, env);
      }
    }

    method OnSetupDataCallRequest(sim: Sim, admitted: bool, ty: PdpType, replies: nat -> Reply,
                                  list: ListReply, env: Env)
      requires Valid()
      modifies `dds, sim0.slots, sim0.holders, sim1.slots, sim1.holders
      ensures Valid() && Carries(old(View()), SetupRequest(sim, admitted, ty, replies, list, env), View())
    {
      StepCarries(View(), SetupRequest(sim, admitted, ty, replies, list, env));
      if !admitted || (sim != dds && allowed[sim]) {
        return;
      }
      if !allowed[sim] {
        SwitchData(sim, true, env);
      }
      SetupDataCall(sim, ty, replies, list, env);
    }

    method OnDeactivateDataCallRequest(sim: Sim, index: int, env: Env)
      requires Valid()
      modifies `dds, sim0.slots, sim0.holders, sim1.slots, sim1.holders
      ensures Valid() && Carries(old(View()), DeactivateRequest(sim, index, env), View())
    {
      StepCarries(View(), DeactivateRequest(sim, index, env));
      var d := Of(sim).DeactivateDataConnection(index + 1);
      var up := Of(sim).IsExistActivePdp();
      assert View() == With(old(View()), sim, Deactivate(old(View()).sims[sim], index + 1).0);
      if !allowed[sim] && !up {
        SwitchData(sim, false, env);
      }
    }

    method RequestSetupDataConnection(sim: Sim, pdn: PdnInfo, ty: PdpType, replies: nat -> Reply,
                                      list: ListReply, env: Env)
      requires Valid()
      modifies `dds, sim0.slots, sim0.holders, sim1.slots, sim1.holders
      ensures Valid() && Carries(old(View()), BipOpen(sim, pdn, ty, replies, list, env), View())
    {
      StepCarries(View(), BipOpen(sim, pdn, ty, replies, list, env));
      if !allowed[sim] {
        return;
      }
      var index := Of(sim).ReuseSlot(pdn);
      if index < 0 {
        SetupDataCall(sim, ty, replies, list, env);
      }
    }

    method RequestDeactiveDataConnection(sim: Sim, index: int)
      requires Valid()
      modifies sim0.slots, sim0.holders, sim1.slots, sim1.holders
      ensures Valid() && Carries(old(View()), BipClose(sim, index), View())
    {
      StepCarries(View(), BipClose(sim, index));
      if index + 1 > 0 {
        var d := Of(sim).DeactivateDataConnection(index + 1);
      }
    }

    /** The +CGEV indication. */
    method OnCidReported(sim: Sim, cid: int, active: bool)
      requires Valid()
      modifies sim0.slots, sim1.slots
      ensures Valid() && Carries(old(View()), ReportedCid(sim, cid, active), View())
    {
      StepCarries(View(), ReportedCid(sim, cid, active));
      Of(sim).OnCidReported(cid, active);
    }

    method OnRadioOff(sim: Sim)
      requires Valid()
      modifies sim0.slots, sim0.holders, sim1.slots, sim1.holders
      ensures Valid() && Carries(old(View()), RadioOff(sim), View())
    {
      ghost var before := View();
      if allowed[sim] {
        Of(sim).ReleaseAll(true);
      }
      assert View() == Step(before, RadioOff(sim));
      StepCarries(before, RadioOff(sim));
    }
  }

  lemma {:induction false} SetupOnIs(s: Service, sim: Sim, ty: PdpType, replies: nat -> Reply, list: ListReply, env: Env)
    ensures var o := Setup(s.sims[sim], RequestOf(s, ty), replies);
      SetupOn(s, sim, ty, replies, list, env)
      == if o.exit.Failed? then SwitchBack(With(s, sim, o.t), sim, env)
         else
           var s1 := With(s, sim, Complete(o.t, o.exit.index, list).0);
           if list == ContextInactive then SwitchBack(s1, sim, env) else s1
  {
    var o := Setup(s.sims[sim], RequestOf(s, ty), replies);
    if !o.exit.Failed? {
      var t := Complete(o.t, o.exit.index, list).0;
      assert With(With(s, sim, o.t), sim, t) == With(s, sim, t);
    }
  }
}
