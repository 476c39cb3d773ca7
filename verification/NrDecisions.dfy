/** When a status is held back, reported or brought forward, in terms of what the SIM's
    variables were before the event.  */
module NrDecisions {
  import opened Sims
  import opened NrHoldOff

  // ----- what can happen to the report of one SIM -----

  /** Nothing is sent, started or stopped. */
  ghost predicate Quiet(s: System, r: System, sim: Sim) {
    && r.reports == s.reports && r.timers == s.timers && r.nextSerial == s.nextSerial
    && r.sims[sim].waiting == s.sims[sim].waiting && r.sims[sim].serial == s.sims[sim].serial
  }

  /** Nothing is sent; a timer of its own starts. */
  ghost predicate Started(s: System, r: System, sim: Sim) {
    && r.reports == s.reports
    && r.timers == s.timers[s.nextSerial := sim] && r.nextSerial == s.nextSerial + 1
    && r.sims[sim].waiting && r.sims[sim].serial == s.nextSerial
  }

  /** The statuses are sent; no timer is touched. */
  ghost predicate Sent(s: System, r: System, sim: Sim, sts: seq<Status>) {
    && r.reports == s.reports[sim := s.reports[sim] + sts]
    && r.timers == s.timers && r.nextSerial == s.nextSerial
    && r.sims[sim].waiting == s.sims[sim].waiting && r.sims[sim].serial == s.sims[sim].serial
  }

  /** The statuses are sent; the remembered timer is gone and the SIM does not wait. */
  ghost predicate Ended(s: System, r: System, sim: Sim, sts: seq<Status>) {
    && r.reports == s.reports[sim := s.reports[sim] + sts]
    && r.timers == s.timers - {s.sims[sim].serial} && r.nextSerial == s.nextSerial
    && !r.sims[sim].waiting && r.sims[sim].serial == s.sims[sim].serial
  }

  // ----- +CSCON -----

  /** Connected through a 5G secondary cell group. */
  predicate OnScg(st: Status) {
    st.mode == 1 && st.access == 5 && st.coreNetwork == 0
  }

  /** A connection loses the secondary cell group, or comes up without it although 5G is
      not restricted, or ends with 5G restricted after having had it.  */
  predicate Flickers(m: Monitor, st: Status) {
    || (st.mode == 1 && !OnScg(st) && m.lastConn == 1 && m.scg)
    || (st.mode == 1 && !OnScg(st) && m.lastConn == 0 && m.notRestricted)
    || (st.mode != 1 && m.lastConn == 1 && m.scg && !m.notRestricted)
  }

  /** A +CSCON indication is held back, behind a fresh timer, exactly if the SIM does not
      wait already and the change is one of these three; it is reported at once exactly
      if the SIM does not wait and it is none of them. A SIM that waits stops waiting
      exactly if the secondary cell group is back or the connection ends with 5G not
      restricted; the status is sent twice then. Otherwise nothing is sent.  */
  lemma {:induction false} CsconDecides(s: System, sim: Sim, st: Status)
    ensures var m, r := s.sims[sim], Step(s, Cscon(sim, st));
      if !m.waiting && Flickers(m, st) then Started(s, r, sim)
      else if !m.waiting then Sent(s, r, sim, [st])
      else if OnScg(st) || (st.mode != 1 && m.notRestricted) then Ended(s, r, sim, [st, st])
      else Quiet(s, r, sim)
  {
    var m := s.sims[sim];
    assert [] + [st] + [st] == [st, st];
    if m.waiting && (OnScg(st) || (st.mode != 1 && m.notRestricted)) {
      assert s.reports[sim] + [st] + [st] == s.reports[sim] + [st, st];
    }
  }

  /** It changes nothing of the other SIM, and of its own the status and the history: a
      connection is remembered with or without the secondary cell group, an idle status
      too unless it is held back by a timer that goes on.  */
  lemma {:induction false} CsconRemembers(s: System, sim: Sim, st: Status)
    ensures var m, r := s.sims[sim], Step(s, Cscon(sim, st)); var m' := r.sims[sim];
      && r.sims[1 - sim] == s.sims[1 - sim]
      && m' == m.(status := st, waiting := m'.waiting, serial := m'.serial,
                  lastConn := if st.mode == 1 then 1 else if m.waiting && !m.notRestricted then m.lastConn else 0,
                  scg := if st.mode == 1 then OnScg(st) else m.scg)
  {
  }

  // ----- registration -----

  /** An LTE registration indication brings a waiting status forward exactly if the SIM
      is not registered (states 1 and 5).  */
  lemma {:induction false} CeregDecides(s: System, sim: Sim, state: int)
    ensures var m, r := s.sims[sim], Step(s, Cereg(sim, state));
      && (if m.waiting && state !in {1, 5} then Ended(s, r, sim, [m.status]) else Quiet(s, r, sim))
      && r.sims == s.sims[sim := m.(inService := state in {1, 5}, waiting := m.waiting && state in {1, 5})]
  {
  }

  /** A 5G one does so exactly if it is for 5G, the state is known, and the SIM has just
      lost its registration; with an unknown state (4) it changes nothing at all.  */
  lemma {:induction false} C5gregDecides(s: System, sim: Sim, state: int, isNr: bool)
    ensures var m, r := s.sims[sim], Step(s, C5greg(sim, state, isNr));
      var lost := isNr && state !in {1, 4, 5} && m.inService;
      && (if m.waiting && lost then Ended(s, r, sim, [m.status]) else Quiet(s, r, sim))
      && r.sims == s.sims[sim := m.(inService := if isNr && state != 4 then state in {1, 5} else m.inService,
                                    waiting := m.waiting && !lost)]
  {
  }

  /** A poll does so exactly if the SIM is neither in 4G nor in stand-alone 5G (10, 11);
      one of the data registration also notes whether 5G is not restricted (13).  */
  lemma {:induction false} PollDecides(s: System, sim: Sim, isData: bool, state: int, act: int, in4G: bool)
    ensures var m, r := s.sims[sim], Step(s, RegistrationPoll(sim, isData, state, act, in4G));
      var left := !in4G && act !in {10, 11};
      && (if m.waiting && left then Ended(s, r, sim, [m.status]) else Quiet(s, r, sim))
      && r.sims == s.sims[sim := m.(notRestricted := if isData then act == 13 else m.notRestricted,
                                    inService := if isData then state in {1, 5} else m.inService,
                                    waiting := m.waiting && !left)]
  {
  }

  // ----- configuration, queries, timers, reset -----

  /** A configured secondary cell group ends the waiting and is reported at once, waiting
      or not; one that is no longer configured starts it.  */
  lemma {:induction false} NrCfgDecides(s: System, sim: Sim, smartNr: bool, configured: int)
    ensures var m, r := s.sims[sim], Step(s, NrCfgInfo(sim, smartNr, configured));
      && (if smartNr && configured == 1 then Ended(s, r, sim, [m.status])
          else if smartNr && !m.waiting && m.lastNrCfg == 1 then Started(s, r, sim)
          else Quiet(s, r, sim))
      && r.sims[1 - sim] == s.sims[1 - sim]
      && r.sims[sim] == m.(lastNrCfg := if smartNr then configured else m.lastNrCfg,
                           waiting := r.sims[sim].waiting, serial := r.sims[sim].serial)
  {
  }

  /** A query reply of one line, parsed to its end, is taken over and reported exactly
      if the SIM does not wait; one without the prefix changes nothing, and one without
      a mode leaves an empty status behind that is not reported.  */
  lemma {:induction false} QueryDecides(s: System, sim: Sim, st: Status)
    ensures var m, r := s.sims[sim], Step(s, Query(sim, [Full(st)]));
      r.sims == s.sims[sim := m.(status := st)] && if m.waiting then Quiet(s, r, sim) else Sent(s, r, sim, [st])
    ensures Step(s, Query(sim, [NoPrefix])) == s
    ensures var r := Step(s, Query(sim, [NoMode]));
      r.sims == s.sims[sim := s.sims[sim].(status := Status(0, 0, 0, 0))] && Quiet(s, r, sim)
  {
    assert [Full(st)][1..] == [];
    assert AfterLines(s.sims[sim].status, [Full(st)]) == AfterLines(st, []);
    assert !AllFull([NoPrefix]) by { assert NoPrefix in [NoPrefix]; }
    assert !AllFull([NoMode]) by { assert NoMode in [NoMode]; }
  }

  /** The last line of a reply that can be parsed to its end counts. */
  lemma {:induction false} LastLineCounts(st: Status, lines: seq<Line>)
    requires AllFull(lines) && lines != []
    ensures AfterLines(st, lines) == lines[|lines| - 1].status
    decreases |lines|
  {
    assert lines[0] in lines;
    if |lines| > 1 {
      assert forall l <- lines[1..] :: l in lines;
      LastLineCounts(lines[0].status, lines[1..]);
    } else {
      assert lines[1..] == [];
    }
  }

  /** An expiring timer ends the waiting of its SIM with the status that has been held
      back; one that has been stopped changes nothing.  */
  lemma {:induction false} TimerDecides(s: System, serial: int)
    ensures if serial in s.timers
      then var sim := s.timers[serial]; var m := s.sims[sim];
           Step(s, TimerFired(serial))
           == System(s.sims[sim := m.(waiting := false)], s.timers - {serial}, s.nextSerial,
                     s.reports[sim := s.reports[sim] + [m.status]])
      else Step(s, TimerFired(serial)) == s
  {
  }

  /** A modem reset forgets everything but the status and the serial. */
  lemma {:induction false} ResetForgets(s: System, sim: Sim)
    ensures var m, r := s.sims[sim], Step(s, ModemReset);
      && r.sims[sim] == Monitor(m.status, false, m.serial, -1, false, false, -1, false)
      && r.timers == s.timers && r.reports == s.reports && r.nextSerial == s.nextSerial
  {
  }

  // ----- a concrete run -----

  const SCG := Status(1, 0, 5, 0)
  const IDLE := Status(0, 0, 0, 0)

  lemma {:induction false} RunTwo(s: System, a: Event, b: Event)
    ensures Run(s, [a, b]) == Step(Step(s, a), b)
  {
    assert [a, b][1..] == [b] && [b][1..] == [];
    assert Run(Step(s, a), [b]) == Run(Step(Step(s, a), b), []);
  }

  lemma {:induction false} RunThree(s: System, a: Event, b: Event, c: Event)
    ensures Run(s, [a, b, c]) == Step(Run(s, [a, b]), c)
  {
    RunTwo(s, a, b);
    RunTwo(Step(s, a), b, c);
    assert [a, b, c][1..] == [b, c];
  }

  /** From the initial state, SIM 0 gains the secondary cell group and goes idle with 5G
      restricted: the framework is told of the first only. If the group comes back
      within the 30 s it never hears of the idle status; if not, the timer tells it.  */
  lemma {:induction false} FlickerRun()
    ensures Run(INITIAL, [Cscon(0, SCG), Cscon(0, IDLE)]).reports == [[SCG], []]
    ensures Run(INITIAL, [Cscon(0, SCG), Cscon(0, IDLE), Cscon(0, SCG)]).reports == [[SCG, SCG, SCG], []]
    ensures Run(INITIAL, [Cscon(0, SCG), Cscon(0, IDLE), TimerFired(1)]).reports == [[SCG, IDLE], []]
  {
    var s1 := Step(INITIAL, Cscon(0, SCG));
    CsconDecides(INITIAL, 0, SCG);
    CsconRemembers(INITIAL, 0, SCG);
    assert INITIAL.reports[0] + [SCG] == [SCG];
    assert s1.reports == [[SCG], []];
    var s2 := Step(s1, Cscon(0, IDLE));
    CsconDecides(s1, 0, IDLE);
    CsconRemembers(s1, 0, IDLE);
    assert s2.reports == [[SCG], []] && s2.timers == map[1 := 0];
    RunTwo(INITIAL, Cscon(0, SCG), Cscon(0, IDLE));
    RunThree(INITIAL, Cscon(0, SCG), Cscon(0, IDLE), Cscon(0, SCG));
    CsconDecides(s2, 0, SCG);
    assert [SCG] + [SCG, SCG] == [SCG, SCG, SCG];
    assert s2.reports[0 := s2.reports[0] + [SCG, SCG]] == [[SCG, SCG, SCG], []];
    RunThree(INITIAL, Cscon(0, SCG), Cscon(0, IDLE), TimerFired(1));
    TimerDecides(s2, 1);
    assert [SCG] + [IDLE] == [SCG, IDLE];
    assert s2.reports[0 := s2.reports[0] + [IDLE]] == [[SCG, IDLE], []];
  }
}
