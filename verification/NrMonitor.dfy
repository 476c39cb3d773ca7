/** The indication handlers of the hold-off, updating the per-SIM variables, the
    timer queue and the reports in place.  */
module NrMonitor {
  import opened Sims
  import opened NrHoldOff

  class HoldOff {
    const sims: array<Monitor>
    const reports: array<seq<Status>>
    var timers: map<int, Sim>
    var nextSerial: int

    ghost predicate Sized() {
      sims.Length == SIM_COUNT && reports.Length == SIM_COUNT
    }

    /** Serials are fresh, and whoever waits has a timer of its own pending. */
    ghost predicate Valid()
      reads this, sims, reports
    {
      Sized() && TimersOk(View())
    }

    ghost function View(): System
      requires Sized()
      reads this, sims, reports
    {
      System(sims[..], timers, nextSerial, reports[..])
    }

    constructor ()
      ensures Valid() && fresh(sims) && fresh(reports)
      ensures View() == INITIAL && NothingLost(View()) && OneLiveTimer(View())
    {
      sims := new Monitor[SIM_COUNT](i requires 0 <= i < SIM_COUNT => INITIAL.sims[i]);
      reports := new seq<Status>[SIM_COUNT](_ => []);
      timers := map[];
      nextSerial := 1;
      new;
      assert sims[..] == INITIAL.sims && reports[..] == [[], []];
      InitiallyNothingLost();
    }

    method UnsolSignalConnStatus(sim: Sim)
      requires Sized()
      modifies reports
      ensures View() == Send(old(View()), sim)
    {
      reports[sim] := reports[sim] + [sims[sim].status];
    }

    method EnqueueTimedMessageCancel(sim: Sim) returns (serial: int)
      requires Sized()
      modifies `timers, `nextSerial
      ensures serial == old(nextSerial) && timers == old(timers)[serial := sim] && nextSerial == serial + 1
    {
      serial := nextSerial;
      timers := timers[serial := sim];
      nextSerial := nextSerial + 1;
    }

    method RemoveTimedMessage(serial: int)
      requires Sized()
      modifies `timers
      ensures View() == StopTimer(old(View()), serial)
    {
      timers := timers - {serial};
    }

    method HoldBack(sim: Sim)
      requires Sized()
      modifies this, sims
      ensures View() == StartTimer(old(View()), sim)
    {
      sims[sim] := sims[sim].(waiting := true);
      var serial := EnqueueTimedMessageCancel(sim);
      sims[sim] := sims[sim].(serial := serial);
      assert sims[..] == StartTimer(old(View()), sim).sims;
    }

    method CancelTimerNrStateChanged(sim: Sim)
      requires Sized()
      modifies sims, reports
      ensures View() == Flush(old(View()), sim)
    {
      sims[sim] := sims[sim].(waiting := false);
      UnsolSignalConnStatus(sim);
    }

    method CancelTimerOperation(sim: Sim)
      requires Sized()
      modifies this, sims, reports
      ensures View() == CancelWait(old(View()), sim)
    {
      if sims[sim].waiting {
        RemoveTimedMessage(sims[sim].serial);
        CancelTimerNrStateChanged(sim);
      }
    }

    /** The timer's own callback; the queue has already dropped the timer. */
    method ProcessRequestTimerDelay(serial: int)
      requires Valid()
      modifies this, sims, reports
      ensures Valid() && Carries(old(View()), TimerFired(serial), View())
    {
      StepCarries(View(), TimerFired(serial));
      if serial !in timers {
        return;
      }
      var sim := timers[serial];
      RemoveTimedMessage(serial);
      sims[sim] := sims[sim].(waiting := false);
      UnsolSignalConnStatus(sim);
    }

    method ProcessCscon(sim: Sim, st: Status)
      requires Valid()
      modifies this, sims, reports
      ensures Valid() && Carries(old(View()), Cscon(sim, st), View())
    {
      StepCarries(View(), Cscon(sim, st));
      sims[sim] := sims[sim].(status := st);
      label stored:
      assert View() == With(old(View()), sim, old(View()).sims[sim].(status := st));
      if st.mode == 1 {
        ProcessConnected(sim);
      } else {
        ProcessIdle(sim);
      }
    }

    method ProcessConnected(sim: Sim)
      requires Sized()
      modifies this, sims, reports
      ensures View() == OnConnected(old(View()), sim)
    {
      var st := sims[sim].status;
      if st.mode == 1 && st.access == SCG_ACCESS && st.coreNetwork == 0 {
        sims[sim] := sims[sim].(scg := true);
        CancelTimerOperation(sim);
      } else {
        if sims[sim].waiting {
          sims[sim] := sims[sim].(lastConn := 1, scg := false);
          return;
        }
        var m := sims[sim];
        if (m.lastConn == 1 && m.scg) || (m.lastConn == 0 && !m.waiting && m.notRestricted) {
          sims[sim] := sims[sim].(lastConn := 1, scg := false);
          HoldBack(sim);
          return;
        }
        sims[sim] := sims[sim].(scg := false);
      }
      sims[sim] := sims[sim].(lastConn := 1);
      UnsolSignalConnStatus(sim);
      assert View().sims == OnConnected(old(View()), sim).sims;
    }

    method ProcessIdle(sim: Sim)
      requires Sized()
      modifies this, sims, reports
      ensures View() == OnIdle(old(View()), sim)
    {
      var m := sims[sim];
      if m.waiting {
        if m.notRestricted {
          RemoveTimedMessage(m.serial);
          CancelTimerNrStateChanged(sim);
        } else {
          return;
        }
      } else if m.lastConn == 1 && !m.notRestricted && m.scg {
        sims[sim] := sims[sim].(lastConn := 0);
        HoldBack(sim);
        return;
      }
      sims[sim] := sims[sim].(lastConn := 0);
      UnsolSignalConnStatus(sim);
    }

    method ProcessCereg(sim: Sim, state: int)
      requires Valid()
      modifies this, sims, reports
      ensures Valid() && Carries(old(View()), Cereg(sim, state), View())
    {
      StepCarries(View(), Cereg(sim, state));
      if state == 1 || state == 5 {
        sims[sim] := sims[sim].(inService := true);
      } else {
        sims[sim] := sims[sim].(inService := false);
        CancelTimerOperation(sim);
      }
    }

    method ProcessC5greg(sim: Sim, state: int, isNr: bool)
      requires Valid()
      modifies this, sims, reports
      ensures Valid() && Carries(old(View()), C5greg(sim, state, isNr), View())
    {
      StepCarries(View(), C5greg(sim, state, isNr));
      if state != 4 && isNr {
        if state == 1 || state == 5 {
          sims[sim] := sims[sim].(inService := true);
        } else if sims[sim].inService {
          sims[sim] := sims[sim].(inService := false);
          CancelTimerOperation(sim);
        }
      }
      assert sims[..] == View().sims;
    }

    method RequestRegistrationState(sim: Sim, isData: bool, state: int, act: int, in4G: bool)
      requires Valid()
      modifies this, sims, reports
      ensures Valid() && Carries(old(View()), RegistrationPoll(sim, isData, state, act, in4G), View())
    {
      StepCarries(View(), RegistrationPoll(sim, isData, state, act, in4G));
      if isData {
        sims[sim] := sims[sim].(notRestricted := act == 13, inService := state == 1 || state == 5);
      }
      if !in4G && !(act == 10 || act == 11) {
        CancelTimerOperation(sim);
      }
    }

    method ProcessNrCfgInfo(sim: Sim, smartNr: bool, configured: int)
      requires Valid()
      modifies this, sims, reports
      ensures Valid() && Carries(old(View()), NrCfgInfo(sim, smartNr, configured), View())
    {
      StepCarries(View(), NrCfgInfo(sim, smartNr, configured));
      if !smartNr {
        return;
      }
      if configured == 1 {
        RemoveTimedMessage(sims[sim].serial);
        CancelTimerNrStateChanged(sim);
      } else if !sims[sim].waiting && sims[sim].lastNrCfg == 1 {
        HoldBack(sim);
      }
      sims[sim] := sims[sim].(lastNrCfg := configured);
    }

    /** Take over the statuses of the reply, as far as it can be parsed. */
    method ReadLines(sim: Sim, lines: seq<Line>) returns (complete: bool)
      requires Sized()
      modifies sims
      ensures complete == AllFull(lines)
      ensures var m := old(sims[sim]);
        sims[..] == old(sims[..])[sim := m.(status := AfterLines(m.status, lines))]
    {
      ghost var m := sims[sim];
      for i := 0 to |lines|
        invariant sims[..] == old(sims[..])[sim := m.(status := sims[sim].status)]
        invariant AfterLines(sims[sim].status, lines[i..]) == AfterLines(m.status, lines)
        invariant AllFull(lines[..i])
      {
        if lines[i].NoPrefix? {
          assert lines[i] in lines;
          return false;
        }
        sims[sim] := sims[sim].(status := NO_STATUS);
        if lines[i].NoMode? {
          assert lines[i] in lines;
          return false;
        }
        sims[sim] := sims[sim].(status := lines[i].status);
        assert lines[i..][1..] == lines[i + 1..];
      }
      assert lines[..|lines|] == lines;
      complete := true;
    }

    method OnQuerySignalConnStatus(sim: Sim, lines: seq<Line>)
      requires Valid()
      modifies sims, reports
      ensures Valid() && Carries(old(View()), Query(sim, lines), View())
    {
      StepCarries(View(), Query(sim, lines));
      var complete := ReadLines(sim, lines);
      if complete && !sims[sim].waiting {
        UnsolSignalConnStatus(sim);
      }
    }

    method OnModemResetNetwork()
      requires Valid()
      modifies sims
      ensures Valid() && Carries(old(View()), ModemReset, View())
    {
      StepCarries(View(), ModemReset);
      for sim := 0 to SIM_COUNT
        invariant forall k :: 0 <= k < sim ==> sims[k] == ResetSim(old(sims[k]))
        invariant forall k :: sim <= k < SIM_COUNT ==> sims[k] == old(sims[k])
      {
        sims[sim] := sims[sim].(inService := false, notRestricted := false, waiting := false,
                                scg := false, lastConn := -1, lastNrCfg := -1);
      }
      assert sims[..] == Step(old(View()), ModemReset).sims;
    }
  }
}
