/** The hold-off of "signal connection status" reports: a change that would make
    the 5G icon flicker is held back for 30 s behind a timer.  */
module NrHoldOff {
  import opened Sims

  const SCG_ACCESS := 5

  datatype Status = Status(mode: int, state: int, access: int, coreNetwork: int) {
    predicate Connected() {
      mode == 1
    }

    /** Connected through a 5G secondary cell group. */
    predicate Scg() {
      Connected() && access == SCG_ACCESS && coreNetwork == 0
    }
  }

  const NO_STATUS := Status(0, 0, 0, 0)

  /** Per-SIM variables: the status to report, whether it is being held back and
      by which timer, and the history that decides when to hold back.  */
  datatype Monitor = Monitor(
    status: Status,
    waiting: bool,
    serial: int,
    lastConn: int,
    scg: bool,
    notRestricted: bool,
    lastNrCfg: int,
    inService: bool)

  /** `timers` maps the serials of pending hold-off timers to their SIM, `reports`
      is everything sent to the framework for each SIM.  */
  datatype SystemRecord = System(sims: seq<Monitor>, timers: map<int, Sim>, nextSerial: int, reports: seq<seq<Status>>)

  type System = s: SystemRecord | |s.sims| == SIM_COUNT && |s.reports| == SIM_COUNT
    witness INITIAL

  const INITIAL := System(
    [Monitor(NO_STATUS, false, -1, -1, false, false, -1, false),
     Monitor(NO_STATUS, false, 0, 0, false, false, 0, false)], map[], 1, [[], []])

  /** One line of a +CSCON query reply, as far as it could be parsed. */
  datatype Line = NoPrefix | NoMode | Full(status: Status)

  datatype Event =
    | Cscon(sim: Sim, status: Status)
    | Cereg(sim: Sim, state: int)
    | C5greg(sim: Sim, state: int, isNr: bool)
    | RegistrationPoll(sim: Sim, isData: bool, state: int, act: int, in4G: bool)
    | NrCfgInfo(sim: Sim, smartNr: bool, configured: int)
    | Query(sim: Sim, lines: seq<Line>)
    | TimerFired(serial: int)
    | ModemReset

  // ----- building blocks -----

  function With(s: System, sim: Sim, m: Monitor): System {
    s.(sims := s.sims[sim := m])
  }

  function Send(s: System, sim: Sim): System {
    s.(reports := s.reports[sim := s.reports[sim] + [s.sims[sim].status]])
  }

  function StopTimer(s: System, serial: int): System {
    s.(timers := s.timers - {serial})
  }

  function StartTimer(s: System, sim: Sim): System {
    With(s, sim, s.sims[sim].(waiting := true, serial := s.nextSerial))
      .(timers := s.timers[s.nextSerial := sim], nextSerial := s.nextSerial + 1)
  }

  /** cancelTimerNRStateChanged: stop holding back and report. */
  function Flush(s: System, sim: Sim): System {
    Send(With(s, sim, s.sims[sim].(waiting := false)), sim)
  }

  /** cancelTimerOperation */
  function CancelWait(s: System, sim: Sim): System {
    if s.sims[sim].waiting then Flush(StopTimer(s, s.sims[sim].serial), sim) else s
  }

  function SetLast(s: System, sim: Sim, conn: int): System {
    With(s, sim, s.sims[sim].(lastConn := conn))
  }

  // ----- events -----

  function OnConnected(s: System, sim: Sim): System {
    var m := s.sims[sim];
    if m.status.Scg() then
      Send(SetLast(CancelWait(With(s, sim, m.(scg := true)), sim), sim, 1), sim)
    else if m.waiting then
      With(s, sim, m.(lastConn := 1, scg := false))
    else
      var s1 := With(s, sim, m.(lastConn := 1, scg := false));
      if (m.lastConn == 1 && m.scg) || (m.lastConn == 0 && m.notRestricted)
      then StartTimer(s1, sim)
      else Send(s1, sim)
  }

  function OnIdle(s: System, sim: Sim): System {
    var m := s.sims[sim];
    if m.waiting then
      if m.notRestricted
      then Send(SetLast(CancelWait(s, sim), sim, 0), sim)
      else s
    else if m.lastConn == 1 && !m.notRestricted && m.scg then
      StartTimer(SetLast(s, sim, 0), sim)
    else
      Send(SetLast(s, sim, 0), sim)
  }

  function OnCscon(s: System, sim: Sim, st: Status): System {
    var s1 := With(s, sim, s.sims[sim].(status := st));
    if st.Connected() then OnConnected(s1, sim) else OnIdle(s1, sim)
  }

  predicate Registered(state: int) {
    state == 1 || state == 5
  }

  function OnCereg(s: System, sim: Sim, state: int): System {
    var s1 := With(s, sim, s.sims[sim].(inService := Registered(state)));
    if Registered(state) then s1 else CancelWait(s1, sim)
  }

  function OnC5greg(s: System, sim: Sim, state: int, isNr: bool): System {
    if state == 4 || !isNr then s
    else
      var s1 := With(s, sim, s.sims[sim].(inService := Registered(state)));
      if !Registered(state) && s.sims[sim].inService then CancelWait(s1, sim) else s1
  }

  /** Access technologies of a registration reply that mean stand-alone 5G. */
  predicate IsNr(act: int) {
    act == 10 || act == 11
  }

  function OnRegistrationPoll(s: System, sim: Sim, isData: bool, state: int, act: int, in4G: bool): System {
    var s1 := if isData
              then With(s, sim, s.sims[sim].(notRestricted := act == 13, inService := Registered(state)))
              else s;
    if !in4G && !IsNr(act) then CancelWait(s1, sim) else s1
  }

  function OnNrCfgInfo(s: System, sim: Sim, smartNr: bool, configured: int): System {
    if !smartNr then s
    else
      var m := s.sims[sim];
      var s1 := if configured == 1 then Flush(StopTimer(s, m.serial), sim)
                else if !m.waiting && m.lastNrCfg == 1 then StartTimer(s, sim)
                else s;
      With(s1, sim, s1.sims[sim].(lastNrCfg := configured))
  }

  /** Status left behind by reading the lines of a query reply. */
  function AfterLines(st: Status, lines: seq<Line>): Status
    decreases |lines|
  {
    if lines == [] then st
    else match lines[0]
      case NoPrefix => st
      case NoMode => NO_STATUS
      case Full(st1) => AfterLines(st1, lines[1..])
  }

  predicate AllFull(lines: seq<Line>) {
    forall l <- lines :: l.Full?
  }

  function OnQuery(s: System, sim: Sim, lines: seq<Line>): System {
    var m := s.sims[sim];
    var s1 := With(s, sim, m.(status := AfterLines(m.status, lines)));
    if AllFull(lines) && !m.waiting then Send(s1, sim) else s1
  }

  function OnTimer(s: System, serial: int): System {
    if serial in s.timers then Flush(StopTimer(s, serial), s.timers[serial]) else s
  }

  function ResetSim(m: Monitor): Monitor {
    m.(waiting := false, lastConn := -1, scg := false, notRestricted := false, lastNrCfg := -1, inService := false)
  }

  function Step(s: System, e: Event): System {
    match e
    case Cscon(sim, st) => OnCscon(s, sim, st)
    case Cereg(sim, state) => OnCereg(s, sim, state)
    case C5greg(sim, state, isNr) => OnC5greg(s, sim, state, isNr)
    case RegistrationPoll(sim, isData, state, act, in4G) => OnRegistrationPoll(s, sim, isData, state, act, in4G)
    case NrCfgInfo(sim, smartNr, configured) => OnNrCfgInfo(s, sim, smartNr, configured)
    case Query(sim, lines) => OnQuery(s, sim, lines)
    case TimerFired(serial) => OnTimer(s, serial)
    case ModemReset => s.(sims := [ResetSim(s.sims[0]), ResetSim(s.sims[1])])
  }

  function Run(s: System, es: seq<Event>): System
    decreases |es|
  {
    if es == [] then s else Run(Step(s, es[0]), es[1..])
  }

  // ----- no status is lost -----

  /** What the framework was told last. */
  function Told(s: System, sim: Sim): Status {
    var r := s.reports[sim];
    if r == [] then NO_STATUS else r[|r| - 1]
  }

  ghost predicate TimerPending(s: System, sim: Sim) {
    exists k :: k in s.timers && s.timers[k] == sim
  }

  /** The framework knows the current status or a timer will tell it. */
  ghost predicate NotLost(s: System, sim: Sim) {
    s.sims[sim].status == Told(s, sim) || TimerPending(s, sim)
  }

  ghost predicate NothingLost(s: System) {
    forall sim: Sim :: NotLost(s, sim)
  }

  /** Serials are positive and fresh; a SIM's remembered serial is that of its own
      timer or of none; a SIM that is waiting has its timer pending.  */
  ghost predicate TimersOk(s: System) {
    && (forall k :: k in s.timers ==> 0 < k < s.nextSerial)
    && (forall sim: Sim :: s.sims[sim].serial < s.nextSerial)
    && (forall sim: Sim :: s.sims[sim].serial in s.timers ==> s.timers[s.sims[sim].serial] == sim)
    && (forall sim: Sim :: s.sims[sim].waiting ==> s.sims[sim].serial in s.timers)
    && 0 < s.nextSerial
  }

  /** A query reply that cannot be parsed to its end leaves a status behind that
      the framework does not know, and no timer is there to tell it.  */
  ghost predicate DropsStatus(s: System, e: Event) {
    e.Query? && !AllFull(e.lines) && !TimerPending(s, e.sim)
    && AfterLines(s.sims[e.sim].status, e.lines) != Told(s, e.sim)
  }

  /** What a handler for one SIM may do: it touches that SIM's monitor, reports and
      timer only, and in the end the status is known or a timer is pending.  */
  ghost predicate Handled(s: System, r: System, sim: Sim) {
    && r.sims == s.sims[sim := r.sims[sim]]
    && r.reports == s.reports[sim := r.reports[sim]]
    && (forall k :: k in r.timers && r.timers[k] != sim ==> k in s.timers && s.timers[k] == r.timers[k])
    && (forall k :: k in s.timers && s.timers[k] != sim ==> k in r.timers && s.timers[k] == r.timers[k])
  }

  lemma {:induction false} HandledElsewhere(s: System, r: System, sim: Sim)
    requires Handled(s, r, sim) && NotLost(s, 1 - sim)
    ensures NotLost(r, 1 - sim)
  {
    if TimerPending(s, 1 - sim) {
      var k :| k in s.timers && s.timers[k] == 1 - sim;
      assert k in r.timers && r.timers[k] == 1 - sim;
    }
  }

  lemma {:induction false} CancelWaitHandles(s: System, sim: Sim)
    requires TimersOk(s)
    ensures var r := CancelWait(s, sim);
      && TimersOk(r) && Handled(s, r, sim) && !r.sims[sim].waiting
      && (s.sims[sim].waiting || NotLost(s, sim) ==> NotLost(r, sim))
      && r.sims[sim] == s.sims[sim].(waiting := false)
  {
  }

  lemma {:induction false} StartTimerHandles(s: System, sim: Sim)
    requires TimersOk(s)
    ensures TimersOk(StartTimer(s, sim)) && Handled(s, StartTimer(s, sim), sim) && NotLost(StartTimer(s, sim), sim)
  {
    var r := StartTimer(s, sim);
    assert s.nextSerial in r.timers && r.timers[s.nextSerial] == sim;
  }

  /** Changing what the timers do not look at. */
  lemma {:induction false} TouchHandles(s: System, sim: Sim, m: Monitor)
    requires TimersOk(s) && m.serial == s.sims[sim].serial && m.waiting == s.sims[sim].waiting
    ensures TimersOk(With(s, sim, m)) && Handled(s, With(s, sim, m), sim)
  {
    var r := With(s, sim, m);
    assert forall j: Sim :: r.sims[j].serial == s.sims[j].serial && r.sims[j].waiting == s.sims[j].waiting;
  }

  lemma {:induction false} SendHandles(s: System, sim: Sim)
    requires TimersOk(s)
    ensures TimersOk(Send(s, sim)) && Handled(s, Send(s, sim), sim) && NotLost(Send(s, sim), sim)
  {
  }

  lemma {:induction false} HandledTwice(s: System, s1: System, s2: System, sim: Sim)
    requires Handled(s, s1, sim) && Handled(s1, s2, sim)
    ensures Handled(s, s2, sim)
  {
  }

  /** Report now, after whatever is waiting has been cancelled. */
  lemma {:induction false} ReportHandles(s: System, sim: Sim, conn: int)
    requires TimersOk(s)
    ensures var r := Send(SetLast(CancelWait(s, sim), sim, conn), sim);
      TimersOk(r) && Handled(s, r, sim) && NotLost(r, sim)
  {
    var s1 := CancelWait(s, sim);
    CancelWaitHandles(s, sim);
    var s2 := SetLast(s1, sim, conn);
    TouchHandles(s1, sim, s1.sims[sim].(lastConn := conn));
    HandledTwice(s, s1, s2, sim);
    SendHandles(s2, sim);
    HandledTwice(s, s2, Send(s2, sim), sim);
  }

  lemma {:induction false} ConnectedHandles(s: System, sim: Sim)
    requires TimersOk(s)
    ensures var r := OnConnected(s, sim); TimersOk(r) && Handled(s, r, sim) && NotLost(r, sim)
  {
    var m := s.sims[sim];
    var s1 := With(s, sim, if m.status.Scg() then m.(scg := true) else m.(lastConn := 1, scg := false));
    TouchHandles(s, sim, s1.sims[sim]);
    if m.status.Scg() {
      ReportHandles(s1, sim, 1);
      HandledTwice(s, s1, OnConnected(s, sim), sim);
    } else if m.waiting {
      assert s1.timers[m.serial] == sim;
    } else {
      StartTimerHandles(s1, sim);
      SendHandles(s1, sim);
      HandledTwice(s, s1, OnConnected(s, sim), sim);
    }
  }

  lemma {:induction false} IdleHandles(s: System, sim: Sim)
    requires TimersOk(s)
    ensures var r := OnIdle(s, sim); TimersOk(r) && Handled(s, r, sim) && NotLost(r, sim)
  {
    var m := s.sims[sim];
    var s1 := SetLast(s, sim, 0);
    if m.waiting {
      ReportHandles(s, sim, 0);
      assert s.timers[m.serial] == sim;
    } else {
      TouchHandles(s, sim, m.(lastConn := 0));
      StartTimerHandles(s1, sim);
      SendHandles(s1, sim);
      HandledTwice(s, s1, OnIdle(s, sim), sim);
    }
  }

  lemma {:induction false} CsconHandles(s: System, sim: Sim, st: Status)
    requires TimersOk(s)
    ensures var r := OnCscon(s, sim, st); TimersOk(r) && Handled(s, r, sim) && NotLost(r, sim)
  {
    var s1 := With(s, sim, s.sims[sim].(status := st));
    TouchHandles(s, sim, s1.sims[sim]);
    ConnectedHandles(s1, sim);
    IdleHandles(s1, sim);
    HandledTwice(s, s1, OnCscon(s, sim, st), sim);
  }

  lemma {:induction false} NrCfgHandles(s: System, sim: Sim, smartNr: bool, configured: int)
    requires TimersOk(s) && NotLost(s, sim)
    ensures var r := OnNrCfgInfo(s, sim, smartNr, configured); TimersOk(r) && Handled(s, r, sim) && NotLost(r, sim)
  {
    StartTimerHandles(s, sim);
    if smartNr && configured != 1 {
      var s1 := if !s.sims[sim].waiting && s.sims[sim].lastNrCfg == 1 then StartTimer(s, sim) else s;
      assert NotLost(s1, sim);
      assert OnNrCfgInfo(s, sim, smartNr, configured).timers == s1.timers;
    }
  }

  lemma {:induction false} QueryHandles(s: System, sim: Sim, lines: seq<Line>)
    requires TimersOk(s) && NotLost(s, sim)
    ensures var r := OnQuery(s, sim, lines);
      TimersOk(r) && Handled(s, r, sim) && (NotLost(r, sim) <==> !DropsStatus(s, Query(sim, lines)))
  {
    var r := OnQuery(s, sim, lines);
    assert r.timers == s.timers;
    assert s.sims[sim].waiting ==> TimerPending(s, sim);
  }

  lemma {:induction false} TimerHandles(s: System, serial: int)
    requires TimersOk(s) && serial in s.timers
    ensures var r := OnTimer(s, serial); TimersOk(r) && Handled(s, r, s.timers[serial]) && NotLost(r, s.timers[serial])
  {
  }

  lemma {:induction false} PollHandles(s: System, s1: System, sim: Sim)
    requires TimersOk(s) && NotLost(s, sim)
    requires s1.timers == s.timers && s1.reports == s.reports && s1.nextSerial == s.nextSerial
    requires s1.sims == s.sims[sim := s1.sims[sim]]
    requires s1.sims[sim].status == s.sims[sim].status && s1.sims[sim].serial == s.sims[sim].serial
             && s1.sims[sim].waiting == s.sims[sim].waiting
    ensures TimersOk(s1) && NotLost(s1, sim) && Handled(s, s1, sim)
    ensures var r := CancelWait(s1, sim); TimersOk(r) && NotLost(r, sim) && Handled(s, r, sim)
  {
    assert forall j: Sim :: s1.sims[j].serial == s.sims[j].serial && s1.sims[j].waiting == s.sims[j].waiting;
    assert TimerPending(s, sim) ==> TimerPending(s1, sim);
    CancelWaitHandles(s1, sim);
  }

  /** The SIM an event is about; a modem reset is about both. */
  function Subject(s: System, e: Event): Sim {
    match e
    case Cscon(sim, _) => sim
    case Cereg(sim, _) => sim
    case C5greg(sim, _, _) => sim
    case RegistrationPoll(sim, _, _, _, _) => sim
    case NrCfgInfo(sim, _, _) => sim
    case Query(sim, _) => sim
    case TimerFired(serial) => if serial in s.timers then s.timers[serial] else 0
    case ModemReset => 0
  }

  lemma {:induction false} StepHandles(s: System, e: Event)
    requires TimersOk(s) && NothingLost(s) && e != ModemReset
    ensures var r := Step(s, e);
      && TimersOk(r) && Handled(s, r, Subject(s, e))
      && (NotLost(r, Subject(s, e)) <==> !DropsStatus(s, e))
  {
    assert NotLost(s, Subject(s, e));
    match e
    case Cscon(sim, st) => CsconHandles(s, sim, st);
    case Cereg(sim, state) =>
      PollHandles(s, With(s, sim, s.sims[sim].(inService := Registered(state))), sim);
    case C5greg(sim, state, isNr) =>
      PollHandles(s, With(s, sim, s.sims[sim].(inService := Registered(state))), sim);
    case RegistrationPoll(sim, isData, state, act, in4G) =>
      PollHandles(s, With(s, sim, s.sims[sim].(notRestricted := act == 13, inService := Registered(state))), sim);
      PollHandles(s, s, sim);
    case NrCfgInfo(sim, smartNr, configured) => NrCfgHandles(s, sim, smartNr, configured);
    case Query(sim, lines) => QueryHandles(s, sim, lines);
    case TimerFired(serial) =>
      if serial in s.timers { TimerHandles(s, serial); }
  }

  lemma {:induction false} ResetLosesNothing(s: System)
    requires TimersOk(s) && NothingLost(s)
    ensures TimersOk(Step(s, ModemReset)) && NothingLost(Step(s, ModemReset))
  {
    var r := Step(s, ModemReset);
    forall sim: Sim ensures NotLost(r, sim) {
      assert NotLost(s, sim);
      assert TimerPending(s, sim) ==> TimerPending(r, sim);
    }
  }

  /** Every event, modem resets included: nothing is lost afterwards if and only
      if the event is not such a malformed query reply.  */
  lemma {:induction false} StepLosesNothing(s: System, e: Event)
    requires TimersOk(s) && NothingLost(s)
    ensures TimersOk(Step(s, e))
    ensures NothingLost(Step(s, e)) <==> !DropsStatus(s, e)
  {
    if e == ModemReset {
      ResetLosesNothing(s);
    } else {
      StepHandles(s, e);
      var sim := Subject(s, e);
      assert NotLost(s, 1 - sim);
      HandledElsewhere(s, Step(s, e), sim);
      assert NothingLost(Step(s, e)) <==> NotLost(Step(s, e), sim) && NotLost(Step(s, e), 1 - sim);
    }
  }

  ghost predicate NeverDrops(s: System, es: seq<Event>)
    decreases |es|
  {
    es == [] || (!DropsStatus(s, es[0]) && NeverDrops(Step(s, es[0]), es[1..]))
  }

  /** In every state of every run in which no reply drops a status, either the
      framework was last told the current status or a timer that will tell it is
      pending.  */
  lemma {:induction false} NothingDroppedNothingLost(s: System, es: seq<Event>)
    requires TimersOk(s) && NothingLost(s) && NeverDrops(s, es)
    ensures TimersOk(Run(s, es)) && NothingLost(Run(s, es))
    decreases |es|
  {
    if es != [] {
      StepLosesNothing(s, es[0]);
      NothingDroppedNothingLost(Step(s, es[0]), es[1..]);
    }
  }

  /** The same for every run whose query replies can all be parsed to their end. */
  lemma {:induction false} NoLostUpdate(s: System, es: seq<Event>)
    requires TimersOk(s) && NothingLost(s)
    requires forall e <- es :: e.Query? ==> AllFull(e.lines)
    ensures TimersOk(Run(s, es)) && NothingLost(Run(s, es))
    decreases |es|
  {
    if es != [] {
      assert es[0] in es;
      StepLosesNothing(s, es[0]);
      NoLostUpdate(Step(s, es[0]), es[1..]);
    }
  }

  lemma {:induction false} InitiallyNothingLost()
    ensures TimersOk(INITIAL) && NothingLost(INITIAL) && OneLiveTimer(INITIAL)
  {
  }

  /** A malformed reply does lose a status: after one connected report, a reply
      without a mode silently resets the status.  */
  lemma {:induction false} MalformedQueryLoses()
    ensures var es := [Cscon(0, Status(1, 1, 4, 0)), Query(0, [NoMode])];
      !NothingLost(Run(INITIAL, es))
  {
    var s1 := Step(INITIAL, Cscon(0, Status(1, 1, 4, 0)));
    assert [Cscon(0, Status(1, 1, 4, 0)), Query(0, [NoMode])][1..] == [Query(0, [NoMode])];
    assert Run(s1, [Query(0, [NoMode])]) == Step(s1, Query(0, [NoMode]));
    assert s1.reports[0] == [Status(1, 1, 4, 0)] && s1.timers == map[];
    var r := Step(s1, Query(0, [NoMode]));
    assert NoMode in [NoMode] && !AllFull([NoMode]);
    assert r.sims[0].status == NO_STATUS && r.reports == s1.reports && r.timers == map[];
    assert !NotLost(r, 0);
  }

  // ----- one live timer -----

  /** A SIM is waiting exactly when one timer is pending for it, and that timer is
      the one whose serial it remembers.  */
  ghost predicate OneLiveTimer(s: System) {
    && (forall k :: k in s.timers ==> s.sims[s.timers[k]].waiting && s.sims[s.timers[k]].serial == k)
    && (forall sim: Sim :: s.sims[sim].waiting ==> s.sims[sim].serial in s.timers && s.timers[s.sims[sim].serial] == sim)
  }

  lemma {:induction false} CancelWaitOneLive(s: System, sim: Sim)
    requires TimersOk(s) && OneLiveTimer(s)
    ensures TimersOk(CancelWait(s, sim)) && OneLiveTimer(CancelWait(s, sim)) && !CancelWait(s, sim).sims[sim].waiting
  {
  }

  lemma {:induction false} StartTimerOneLive(s: System, sim: Sim)
    requires TimersOk(s) && OneLiveTimer(s) && !s.sims[sim].waiting
    ensures OneLiveTimer(StartTimer(s, sim))
  {
  }

  lemma {:induction false} TouchOneLive(s: System, sim: Sim, m: Monitor)
    requires TimersOk(s) && OneLiveTimer(s)
    requires m.serial == s.sims[sim].serial && m.waiting == s.sims[sim].waiting
    ensures TimersOk(With(s, sim, m)) && OneLiveTimer(With(s, sim, m))
  {
    TouchHandles(s, sim, m);
    var r := With(s, sim, m);
    assert forall j: Sim :: r.sims[j].serial == s.sims[j].serial && r.sims[j].waiting == s.sims[j].waiting;
  }

  lemma {:induction false} ReportOneLive(s: System, sim: Sim, conn: int)
    requires TimersOk(s) && OneLiveTimer(s)
    ensures OneLiveTimer(Send(SetLast(CancelWait(s, sim), sim, conn), sim))
  {
    CancelWaitOneLive(s, sim);
    TouchOneLive(CancelWait(s, sim), sim, CancelWait(s, sim).sims[sim].(lastConn := conn));
  }

  lemma {:induction false} ConnectedOneLive(s: System, sim: Sim)
    requires TimersOk(s) && OneLiveTimer(s)
    ensures OneLiveTimer(OnConnected(s, sim))
  {
    var m := s.sims[sim];
    if m.status.Scg() {
      TouchOneLive(s, sim, m.(scg := true));
      ReportOneLive(With(s, sim, m.(scg := true)), sim, 1);
    } else {
      TouchOneLive(s, sim, m.(lastConn := 1, scg := false));
      if !m.waiting { StartTimerOneLive(With(s, sim, m.(lastConn := 1, scg := false)), sim); }
    }
  }

  lemma {:induction false} IdleOneLive(s: System, sim: Sim)
    requires TimersOk(s) && OneLiveTimer(s)
    ensures OneLiveTimer(OnIdle(s, sim))
  {
    ReportOneLive(s, sim, 0);
    TouchOneLive(s, sim, s.sims[sim].(lastConn := 0));
    if !s.sims[sim].waiting { StartTimerOneLive(SetLast(s, sim, 0), sim); }
  }

  lemma {:induction false} CsconOneLive(s: System, sim: Sim, st: Status)
    requires TimersOk(s) && OneLiveTimer(s)
    ensures OneLiveTimer(OnCscon(s, sim, st))
  {
    TouchOneLive(s, sim, s.sims[sim].(status := st));
    ConnectedOneLive(With(s, sim, s.sims[sim].(status := st)), sim);
    IdleOneLive(With(s, sim, s.sims[sim].(status := st)), sim);
  }

  lemma {:induction false} NrCfgOneLive(s: System, sim: Sim, smartNr: bool, configured: int)
    requires TimersOk(s) && OneLiveTimer(s)
    ensures OneLiveTimer(OnNrCfgInfo(s, sim, smartNr, configured))
  {
    if smartNr {
      var m := s.sims[sim];
      var s1 := if configured == 1 then Flush(StopTimer(s, m.serial), sim)
                else if !m.waiting && m.lastNrCfg == 1 then StartTimer(s, sim)
                else s;
      StartTimerHandles(s, sim);
      if configured != 1 && !m.waiting { StartTimerOneLive(s, sim); }
      assert TimersOk(s1) && OneLiveTimer(s1);
      TouchOneLive(s1, sim, s1.sims[sim].(lastNrCfg := configured));
    }
  }

  lemma {:induction false} CancelAfterTouch(s: System, sim: Sim, m: Monitor)
    requires TimersOk(s) && OneLiveTimer(s)
    requires m.serial == s.sims[sim].serial && m.waiting == s.sims[sim].waiting
    ensures OneLiveTimer(With(s, sim, m)) && OneLiveTimer(CancelWait(With(s, sim, m), sim))
  {
    TouchOneLive(s, sim, m);
    CancelWaitOneLive(With(s, sim, m), sim);
  }

  /** All events keep exactly one live timer per waiting SIM, except a modem reset
      that finds a SIM waiting, which always breaks it.  */
  lemma {:induction false} StepKeepsOneLiveTimer(s: System, e: Event)
    requires TimersOk(s) && OneLiveTimer(s)
    ensures OneLiveTimer(Step(s, e)) <==> !(e == ModemReset && (s.sims[0].waiting || s.sims[1].waiting))
  {
    match e
    case Cscon(sim, st) => CsconOneLive(s, sim, st);
    case Cereg(sim, state) => CancelAfterTouch(s, sim, s.sims[sim].(inService := Registered(state)));
    case C5greg(sim, state, isNr) => CancelAfterTouch(s, sim, s.sims[sim].(inService := Registered(state)));
    case RegistrationPoll(sim, isData, state, act, in4G) =>
      CancelAfterTouch(s, sim, s.sims[sim].(notRestricted := act == 13, inService := Registered(state)));
      CancelWaitOneLive(s, sim);
    case NrCfgInfo(sim, smartNr, configured) => NrCfgOneLive(s, sim, smartNr, configured);
    case Query(sim, lines) => TouchOneLive(s, sim, s.sims[sim].(status := AfterLines(s.sims[sim].status, lines)));
    case TimerFired(serial) =>
    case ModemReset =>
      if s.sims[0].waiting { assert s.timers[s.sims[0].serial] == 0; }
      if s.sims[1].waiting { assert s.timers[s.sims[1].serial] == 1; }
  }

  lemma {:induction false} CancelKeepsTimersOk(s: System, sim: Sim, m: Monitor)
    requires TimersOk(s) && m.serial == s.sims[sim].serial && m.waiting == s.sims[sim].waiting
    ensures TimersOk(With(s, sim, m)) && TimersOk(CancelWait(With(s, sim, m), sim))
  {
    TouchHandles(s, sim, m);
    CancelWaitHandles(With(s, sim, m), sim);
  }

  lemma {:induction false} NrCfgKeepsTimersOk(s: System, sim: Sim, smartNr: bool, configured: int)
    requires TimersOk(s)
    ensures TimersOk(OnNrCfgInfo(s, sim, smartNr, configured))
  {
    var m := s.sims[sim];
    var s1 := if configured == 1 then Flush(StopTimer(s, m.serial), sim)
              else if !m.waiting && m.lastNrCfg == 1 then StartTimer(s, sim)
              else s;
    StartTimerHandles(s, sim);
    assert TimersOk(s1);
    TouchHandles(s1, sim, s1.sims[sim].(lastNrCfg := configured));
  }

  /** Every event whatsoever keeps the timers in order. */
  lemma {:induction false} StepKeepsTimersOk(s: System, e: Event)
    requires TimersOk(s)
    ensures TimersOk(Step(s, e))
  {
    match e
    case Cscon(sim, st) => CsconHandles(s, sim, st);
    case Cereg(sim, state) => CancelKeepsTimersOk(s, sim, s.sims[sim].(inService := Registered(state)));
    case C5greg(sim, state, isNr) => CancelKeepsTimersOk(s, sim, s.sims[sim].(inService := Registered(state)));
    case RegistrationPoll(sim, isData, state, act, in4G) =>
      CancelKeepsTimersOk(s, sim, s.sims[sim].(notRestricted := act == 13, inService := Registered(state)));
      CancelWaitHandles(s, sim);
    case NrCfgInfo(sim, smartNr, configured) => NrCfgKeepsTimersOk(s, sim, smartNr, configured);
    case Query(sim, lines) => TouchHandles(s, sim, s.sims[sim].(status := AfterLines(s.sims[sim].status, lines)));
    case TimerFired(serial) =>
      if serial in s.timers { TimerHandles(s, serial); }
    case ModemReset =>
  }

  /** What every event does to the two invariants. */
  ghost predicate Carries(s: System, e: Event, r: System) {
    && r == Step(s, e)
    && (NothingLost(s) ==> (NothingLost(r) <==> !DropsStatus(s, e)))
    && (OneLiveTimer(s) ==>
          (OneLiveTimer(r) <==> !(e == ModemReset && (s.sims[0].waiting || s.sims[1].waiting))))
  }

  lemma {:induction false} StepCarries(s: System, e: Event)
    requires TimersOk(s)
    ensures TimersOk(Step(s, e)) && Carries(s, e, Step(s, e))
  {
    StepKeepsTimersOk(s, e);
    if NothingLost(s) { StepLosesNothing(s, e); }
    if OneLiveTimer(s) { StepKeepsOneLiveTimer(s, e); }
  }

  /** Between two modem resets, a SIM is waiting exactly when its one timer is
      pending, whatever query replies come.  */
  lemma {:induction false} OneLiveTimerBetweenResets(s: System, es: seq<Event>)
    requires TimersOk(s) && OneLiveTimer(s) && ModemReset !in es
    ensures TimersOk(Run(s, es)) && OneLiveTimer(Run(s, es))
    decreases |es|
  {
    if es != [] {
      StepKeepsTimersOk(s, es[0]);
      StepKeepsOneLiveTimer(s, es[0]);
      OneLiveTimerBetweenResets(Step(s, es[0]), es[1..]);
    }
  }

  /** A run that leaves a timer behind: SIM 0 may use 5G, goes idle, connects, so
      that the report is held back, and then the modem is reset.  */
  lemma {:induction false} ResetLeavesTimer()
    ensures var es := [RegistrationPoll(0, true, 1, 13, true), Cscon(0, Status(0, 0, 0, 0)),
                       Cscon(0, Status(1, 1, 4, 0)), ModemReset];
      OneLiveTimer(INITIAL) && !OneLiveTimer(Run(INITIAL, es))
  {
    var poll, idle := RegistrationPoll(0, true, 1, 13, true), Cscon(0, Status(0, 0, 0, 0));
    var connected := Cscon(0, Status(1, 1, 4, 0));
    var s1 := Step(INITIAL, poll);
    assert s1.sims[0].notRestricted && !s1.sims[0].waiting && s1.sims[0].lastConn == -1;
    var s2 := Step(s1, idle);
    assert s2.sims[0].notRestricted && !s2.sims[0].waiting && s2.sims[0].lastConn == 0;
    var s3 := Step(s2, connected);
    assert s3.sims[0].waiting && s3.sims[0].serial in s3.timers && s3.timers[s3.sims[0].serial] == 0;
    var s4 := Step(s3, ModemReset);
    assert s3.sims[0].serial in s4.timers && !s4.sims[0].waiting;
    RunFour(INITIAL, poll, idle, connected, ModemReset);
  }

  lemma {:induction false} RunFour(s: System, a: Event, b: Event, c: Event, d: Event)
    ensures Run(s, [a, b, c, d]) == Step(Step(Step(Step(s, a), b), c), d)
  {
    assert [a, b, c, d][1..] == [b, c, d] && [b, c, d][1..] == [c, d] && [c, d][1..] == [d] && [d][1..] == [];
    assert Run(Step(s, a), [b, c, d]) == Run(Step(Step(s, a), b), [c, d]);
    assert Run(Step(Step(s, a), b), [c, d]) == Run(Step(Step(Step(s, a), b), c), [d]);
  }

  /** While a SIM waits, a connected event outside a secondary cell group is held
      back: nothing is reported and the same timer stays pending.  */
  lemma {:induction false} HeldBack(s: System, sim: Sim, st: Status)
    requires TimersOk(s) && s.sims[sim].waiting && st.Connected() && !st.Scg()
    ensures var r := Step(s, Cscon(sim, st));
      && r.reports == s.reports && r.timers == s.timers
      && r.sims[sim].waiting && r.sims[sim].serial == s.sims[sim].serial && r.sims[sim].status == st
      && Told(Step(r, TimerFired(r.sims[sim].serial)), sim) == st
  {
  }
}
