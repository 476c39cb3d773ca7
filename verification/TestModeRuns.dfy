/** What single requests of the test-mode transaction do: how often a busy command is
    sent again, which locks are held for what, and whole runs of each kind of request.  */
module TestModeRuns {
  import opened Sims
  import opened Options
  import opened TestModeProtocol
  import opened LateRejection

  // ----- busy answers -----

  /** A request that has sent its command n + 1 times and is told that the modem is
      busy sends it again exactly if n < 3, with its entry registered anew; a failure
      of any other kind, or one more busy answer, is final.  */
  lemma {:induction false} RetriedExactly(s: State, t: Token, n: nat)
    requires t < |s.threads| && s.threads[t].pc == Sent(n) && s.threads[t].entry == Armed
    ensures var th := s.threads[t];
      var again := s.(threads := s.threads[t := th.(pc := Again(n + 1), entry := NoEntry)]);
      && (Next(s, t, AtBusy).Some? <==> n < 3)
      && (n < 3 ==> Next(s, t, AtBusy) == Some(again)
                    && Next(again, t, Go) == Some(s.(threads := s.threads[t := th.(pc := Sent(n + 1), entry := Armed)])))
      && Next(s, t, AtFail) == Some(s.(threads := s.threads[t := th.(pc := Refused, entry := NoEntry)]))
      && Next(s, t, AtOk) == Some(s.(threads := s.threads[t := th.(pc := Accepted)]))
  {
    var th := s.threads[t];
    var again := th.(pc := Again(n + 1), entry := NoEntry);
    assert s.threads[t := again][t := th.(pc := Sent(n + 1), entry := Armed)]
        == s.threads[t := th.(pc := Sent(n + 1), entry := Armed)];
  }

  /** A request waits for the answer to its command; it never goes on by itself. A
      thread can take the other branch only where the code decides.  */
  lemma {:induction false} WaitsAndChoices(s: State, t: Token)
    requires t < |s.threads|
    ensures s.threads[t].pc.Sent? ==> Next(s, t, Go) == None && Next(s, t, Decline) == None
    ensures Next(s, t, Decline).Some? ==> s.threads[t].pc in {HasBoth, InModes, PowerHeld, PowerAfter}
  {
  }

  /** Busy answers that one request has been given and has reacted to by retrying. */
  function Busies(es: seq<Event>, t: Token): nat {
    if es == [] then 0
    else (if es[0] == Happens(t, AtBusy) then 1 else 0) + Busies(es[1..], t)
  }

  predicate InLoop(pc: Pc) {
    pc.Sent? || pc.Again?
  }

  predicate PastCommand(pc: Pc) {
    pc in {Refused, Accepted, Answer, Unwind0, Unwind1, Finished}
  }

  function Tries(s: State, t: Token): nat {
    if t < |s.threads| && InLoop(s.threads[t].pc) then s.threads[t].pc.retries else 0
  }

  predicate Past(s: State, t: Token) {
    t < |s.threads| && PastCommand(s.threads[t].pc)
  }

  lemma {:induction false} StatementTries(th: Thread, flag0: bool, flag1: bool, other: bool)
    requires ThreadEffect(th, flag0, flag1, other).Some?
    ensures var pc := ThreadEffect(th, flag0, flag1, other).value.th.pc;
      && (PastCommand(th.pc) ==> PastCommand(pc))
      && (!PastCommand(pc) ==> (if InLoop(pc) then pc.retries else 0) == if InLoop(th.pc) then th.pc.retries else 0)
  {
  }

  lemma {:induction false} StepTries(s: State, t: Token, u: Token, m: Move)
    requires u < |s.threads| && Next(s, u, m).Some?
    ensures var r := Next(s, u, m).value; var busy := if u == t && m == AtBusy then 1 else 0;
      && (Past(s, t) ==> Past(r, t) && busy == 0)
      && (!Past(r, t) ==> Tries(r, t) == Tries(s, t) + busy)
      && (busy == 1 ==> Tries(s, t) < 3 && !Past(r, t))
  {
    var th := s.threads[u];
    if m == Go { StatementTries(th, s.flag0, s.flag1, false); }
    if m == Decline { StatementTries(th, s.flag0, s.flag1, true); }
  }

  lemma {:induction false} RunTries(s: State, es: seq<Event>, t: Token)
    requires Run(s, es).Some?
    requires Tries(s, t) <= 3
    ensures var r := Run(s, es).value;
      && (Past(s, t) ==> Past(r, t) && Busies(es, t) == 0)
      && (!Past(r, t) ==> Tries(r, t) == Tries(s, t) + Busies(es, t))
      && Tries(s, t) + Busies(es, t) <= 3
    decreases |es|
  {
    if es != [] {
      if es[0].Happens? { StepTries(s, t, es[0].t, es[0].m); }
      RunTries(Apply(s, es[0]).value, es[1..], t);
    }
  }

  /** In every run no request is retried more than three times, and one whose command
      is out has been told to be busy exactly as often as it counts.  */
  lemma {:induction false} AtMostThreeRetries(es: seq<Event>, t: Token)
    requires Run(INITIAL, es).Some? && t < |Run(INITIAL, es).value.threads|
    ensures var pc := Run(INITIAL, es).value.threads[t].pc;
      Busies(es, t) <= 3 && (pc.Sent? || pc.Again? ==> pc.retries == Busies(es, t))
  {
    RunTries(INITIAL, es, t);
  }

  // ----- what the locks are held for -----

  /** In every reachable state a registered command has both power locks, and that of
      a network-type request the mutex of the work modes too; whoever is at a
      statement on the work modes has that mutex.  */
  lemma {:induction false} LockedStatements(es: seq<Event>, t: Token)
    requires NoLateRejection(es) && Run(INITIAL, es).Some? && t < |Run(INITIAL, es).value.threads|
    ensures var s := Run(INITIAL, es).value; var th := s.threads[t];
      && (th.pc.Sent? && th.entry == Armed ==> s.power0 == HeldBy(t) && s.power1 == HeldBy(t))
      && (th.pc.Sent? && th.kind == NetType ==> s.modes == HeldBy(t))
      && (th.pc in {InModes, PowerModes, PowerRepair} ==> s.modes == HeldBy(t))
  {
    assert Inv(INITIAL);
    RunKeepsInv(INITIAL, es);
    Owners(Run(INITIAL, es).value, t);
    StatementOwns(Run(INITIAL, es).value.threads[t]);
  }

  lemma {:induction false} Owners(s: State, t: Token)
    requires Inv(s) && t < |s.threads|
    ensures Owns0(s.threads[t]) ==> s.power0 == HeldBy(t)
    ensures Owns1(s.threads[t]) ==> s.power1 == HeldBy(t)
    ensures OwnsModes(s.threads[t]) ==> s.modes == HeldBy(t)
  {
  }

  lemma {:induction false} StatementOwns(th: Thread)
    ensures th.pc.Sent? && th.entry == Armed ==> Owns0(th) && Owns1(th)
    ensures th.pc.Sent? && th.kind == NetType ==> OwnsModes(th)
    ensures th.pc in {InModes, PowerModes, PowerRepair} ==> OwnsModes(th)
  {
  }

  /** The work modes are read before the command is first sent and before the radio is
      switched on, and there is no way past their mutex.  */
  lemma {:induction false} ThroughTheModes(s: State, t: Token, m: Move)
    requires t < |s.threads| && Next(s, t, m).Some?
    ensures var from, to := s.threads[t].pc, Next(s, t, m).value.threads[t].pc;
      from != to ==>
      && (to == Sent(0) ==> from == InModes || from == OutModes || from == Again(0))
      && (to == OutModes ==> from == InModes)
      && (to == PowerAfter ==> from == PowerModes)
      && (to in {InModes, PowerModes, PowerRepair} ==> s.modes == Free)
      && (to == InModes ==> from == HasBoth)
      && (to == PowerModes ==> from == PowerHeld)
      && (to == PowerRepair ==> from == PowerAfter)
      && (to.Again? ==> from.Sent?)
  {
    var th := s.threads[t];
    if m == Go { StatementPath(th, s.flag0, s.flag1, false); }
    if m == Decline { StatementPath(th, s.flag0, s.flag1, true); }
  }

  lemma {:induction false} StatementPath(th: Thread, flag0: bool, flag1: bool, other: bool)
    requires ThreadEffect(th, flag0, flag1, other).Some?
    ensures var e := ThreadEffect(th, flag0, flag1, other).value; var from, to := th.pc, e.th.pc;
      from != to ==>
      && (to == Sent(0) ==> from == InModes || from == OutModes || from == Again(0))
      && (to == OutModes ==> from == InModes)
      && (to == PowerAfter ==> from == PowerModes)
      && (to in {InModes, PowerModes, PowerRepair} ==> e.modes == Acquire)
      && (to == InModes ==> from == HasBoth)
      && (to == PowerModes ==> from == PowerHeld)
      && (to == PowerRepair ==> from == PowerAfter)
      && !to.Again?
  {
  }

  // ----- a network-type request -----

  const BUSY := Happens(0, AtBusy)
  const OTHER := Happens(0, Decline)

  lemma {:induction false} BusyAgain(es: seq<Event>, n: nat)
    requires n < 3
    requires Reaches(es, One(Sent(n), Armed, 0, 2, 0, HeldBy(0), HeldBy(0), HeldBy(0)))
    ensures Reaches(es + [BUSY] + [GO], One(Sent(n + 1), Armed, 0, 2, 0, HeldBy(0), HeldBy(0), HeldBy(0)))
  {
    var s1 := One(Again(n + 1), NoEntry, 0, 2, 0, HeldBy(0), HeldBy(0), HeldBy(0));
    Then(es, One(Sent(n), Armed, 0, 2, 0, HeldBy(0), HeldBy(0), HeldBy(0)), BUSY, s1);
    Then(es + [BUSY], s1, GO, One(Sent(n + 1), Armed, 0, 2, 0, HeldBy(0), HeldBy(0), HeldBy(0)));
  }

  lemma {:induction false} AcceptedAtLast(es: seq<Event>)
    requires Reaches(es, One(Sent(3), Armed, 0, 2, 0, HeldBy(0), HeldBy(0), HeldBy(0)))
    ensures Reaches(es + [Happens(0, AtOk)] + [GO] + [Happens(0, Take)],
                    One(Finished, Taken, 0, 2, 0, HeldBy(0), HeldBy(0), Free))
  {
    var s0 := One(Sent(3), Armed, 0, 2, 0, HeldBy(0), HeldBy(0), HeldBy(0));
    var s1 := One(Accepted, Armed, 0, 2, 0, HeldBy(0), HeldBy(0), HeldBy(0));
    var s2 := One(Finished, Armed, 0, 2, 0, HeldBy(0), HeldBy(0), Free);
    Then(es, s0, Happens(0, AtOk), s1);
    Then(es + [Happens(0, AtOk)], s1, GO, s2);
    Then(es + [Happens(0, AtOk)] + [GO], s2, Happens(0, Take),
         One(Finished, Taken, 0, 2, 0, HeldBy(0), HeldBy(0), Free));
  }

  lemma {:induction false} TakerReleases(es: seq<Event>)
    requires Reaches(es, One(Finished, Taken, 0, 2, 0, HeldBy(0), HeldBy(0), Free))
    ensures Reaches(es + [HANDLE] + [HANDLE] + [HANDLE], One(Finished, Completed, 1, 2, 2, Free, Free, Free))
  {
    var s1 := One(Finished, Freed0, 0, 2, 1, Free, HeldBy(0), Free);
    var s2 := One(Finished, Freed1, 0, 2, 2, Free, Free, Free);
    Then(es, One(Finished, Taken, 0, 2, 0, HeldBy(0), HeldBy(0), Free), HANDLE, s1);
    Then(es + [HANDLE], s1, HANDLE, s2);
    Then(es + [HANDLE] + [HANDLE], s2, HANDLE, One(Finished, Completed, 1, 2, 2, Free, Free, Free));
  }

  lemma {:induction false} Sends(es: seq<Event>)
    requires Reaches(es, One(HasBoth, NoEntry, 0, 2, 0, HeldBy(0), HeldBy(0), Free))
    ensures Reaches(es + [GO] + [GO], One(Sent(0), Armed, 0, 2, 0, HeldBy(0), HeldBy(0), HeldBy(0)))
  {
    var s1 := One(InModes, NoEntry, 0, 2, 0, HeldBy(0), HeldBy(0), HeldBy(0));
    Then(es, One(HasBoth, NoEntry, 0, 2, 0, HeldBy(0), HeldBy(0), Free), GO, s1);
    Then(es + [GO], s1, GO, One(Sent(0), Armed, 0, 2, 0, HeldBy(0), HeldBy(0), HeldBy(0)));
  }

  const THREE_BUSY := [Arrival(NetType), GO, GO, GO] + [GO] + [GO] + [BUSY] + [GO] + [BUSY] + [GO] + [BUSY] + [GO]

  lemma {:induction false} AfterThreeBusy()
    ensures Reaches(THREE_BUSY, One(Sent(3), Armed, 0, 2, 0, HeldBy(0), HeldBy(0), HeldBy(0)))
  {
    var sent := [Arrival(NetType), GO, GO, GO] + [GO] + [GO];
    TakesLocks();
    Sends([Arrival(NetType), GO, GO, GO]);
    BusyAgain(sent, 0);
    BusyAgain(sent + [BUSY] + [GO], 1);
    BusyAgain(sent + [BUSY] + [GO] + [BUSY] + [GO], 2);
  }

  /** From the initial state: three busy answers, a fourth command that is accepted,
      and the indication. The token has been completed once and all locks are free.
      A fourth busy answer would have been final.  */
  lemma {:induction false} ThreeBusyThenAccepted()
    ensures Reaches(THREE_BUSY + [Happens(0, AtOk)] + [GO] + [Happens(0, Take)] + [HANDLE] + [HANDLE] + [HANDLE],
                    State([Thread(NetType, Finished, Completed, 1, 1, 1, 1, 1)], Free, Free, Free, false, false, 0, 0, 0))
    ensures Run(INITIAL, THREE_BUSY + [BUSY]) == None
  {
    AfterThreeBusy();
    AcceptedAtLast(THREE_BUSY);
    TakerReleases(THREE_BUSY + [Happens(0, AtOk)] + [GO] + [Happens(0, Take)]);
    RunAppend(INITIAL, THREE_BUSY, BUSY);
  }

  lemma {:induction false} GetsRefused(es: seq<Event>)
    requires Reaches(es, One(Sent(0), Armed, 0, 2, 0, HeldBy(0), HeldBy(0), HeldBy(0)))
    ensures Reaches(es + [Happens(0, AtFail)] + [GO], One(Answer, NoEntry, 0, 2, 0, HeldBy(0), HeldBy(0), Free))
  {
    Then(es, One(Sent(0), Armed, 0, 2, 0, HeldBy(0), HeldBy(0), HeldBy(0)), Happens(0, AtFail),
         One(Refused, NoEntry, 0, 2, 0, HeldBy(0), HeldBy(0), HeldBy(0)));
    Then(es + [Happens(0, AtFail)], One(Refused, NoEntry, 0, 2, 0, HeldBy(0), HeldBy(0), HeldBy(0)), GO,
         One(Answer, NoEntry, 0, 2, 0, HeldBy(0), HeldBy(0), Free));
  }

  lemma {:induction false} AnswersItself(es: seq<Event>)
    requires Reaches(es, One(Answer, NoEntry, 0, 2, 0, HeldBy(0), HeldBy(0), Free))
    ensures Reaches(es + [GO] + [GO] + [GO], One(Finished, NoEntry, 1, 2, 2, Free, Free, Free))
  {
    Then(es, One(Answer, NoEntry, 0, 2, 0, HeldBy(0), HeldBy(0), Free), GO,
         One(Unwind0, NoEntry, 1, 2, 0, HeldBy(0), HeldBy(0), Free));
    Then(es + [GO], One(Unwind0, NoEntry, 1, 2, 0, HeldBy(0), HeldBy(0), Free), GO,
         One(Unwind1, NoEntry, 1, 2, 1, Free, HeldBy(0), Free));
    Then(es + [GO] + [GO], One(Unwind1, NoEntry, 1, 2, 1, Free, HeldBy(0), Free), GO,
         One(Finished, NoEntry, 1, 2, 2, Free, Free, Free));
  }

  /** A command that fails at once: the request itself answers and unlocks. */
  lemma {:induction false} FailedRun()
    ensures Reaches([Arrival(NetType), GO, GO, GO] + [GO] + [GO] + [Happens(0, AtFail)] + [GO] + [GO] + [GO] + [GO],
                    State([Thread(NetType, Finished, NoEntry, 1, 1, 1, 1, 1)], Free, Free, Free, false, false, 0, 0, 0))
  {
    TakesLocks();
    Sends([Arrival(NetType), GO, GO, GO]);
    GetsRefused([Arrival(NetType), GO, GO, GO] + [GO] + [GO]);
    AnswersItself([Arrival(NetType), GO, GO, GO] + [GO] + [GO] + [Happens(0, AtFail)] + [GO]);
  }

  /** A request that is turned down before its command sends none: either at once, or
      when the work modes show that there is nothing to do.  */
  lemma {:induction false} TurnedDownRuns()
    ensures Reaches([Arrival(NetType), GO, GO, GO] + [OTHER] + [GO] + [GO] + [GO],
                    One(Finished, NoEntry, 1, 2, 2, Free, Free, Free))
    ensures Reaches([Arrival(NetType), GO, GO, GO] + [GO] + [OTHER] + [GO],
                    One(Answer, NoEntry, 0, 2, 0, HeldBy(0), HeldBy(0), Free))
  {
    var es := [Arrival(NetType), GO, GO, GO];
    TakesLocks();
    TurnsDown(es);
    AnswersItself(es + [OTHER]);
    TurnsDownInModes(es);
  }

  lemma {:induction false} TurnsDown(es: seq<Event>)
    requires Reaches(es, One(HasBoth, NoEntry, 0, 2, 0, HeldBy(0), HeldBy(0), Free))
    ensures Reaches(es + [OTHER], One(Answer, NoEntry, 0, 2, 0, HeldBy(0), HeldBy(0), Free))
  {
    Then(es, One(HasBoth, NoEntry, 0, 2, 0, HeldBy(0), HeldBy(0), Free), OTHER,
         One(Answer, NoEntry, 0, 2, 0, HeldBy(0), HeldBy(0), Free));
  }

  lemma {:induction false} TurnsDownInModes(es: seq<Event>)
    requires Reaches(es, One(HasBoth, NoEntry, 0, 2, 0, HeldBy(0), HeldBy(0), Free))
    ensures Reaches(es + [GO] + [OTHER] + [GO], One(Answer, NoEntry, 0, 2, 0, HeldBy(0), HeldBy(0), Free))
  {
    var s1 := One(InModes, NoEntry, 0, 2, 0, HeldBy(0), HeldBy(0), HeldBy(0));
    var s2 := One(Refused, NoEntry, 0, 2, 0, HeldBy(0), HeldBy(0), HeldBy(0));
    Then(es, One(HasBoth, NoEntry, 0, 2, 0, HeldBy(0), HeldBy(0), Free), GO, s1);
    Then(es + [GO], s1, OTHER, s2);
    Then(es + [GO] + [OTHER], s2, GO, One(Answer, NoEntry, 0, 2, 0, HeldBy(0), HeldBy(0), Free));
  }

  // ----- radio power -----

  /** The state of one radio-power request on SIM 1. */
  function Power(pc: Pc, completions: nat, locked: nat, unlocked: nat, modes: Lock): State {
    State([Thread(RadioPower(1), pc, NoEntry, completions, 0, 0, locked, unlocked)],
          Free, if locked > unlocked then HeldBy(0) else Free, modes, false, false, 0, 0, 0)
  }

  const LOCKED := [] + [Arrival(RadioPower(1))] + [GO]

  lemma {:induction false} TakesOwnLock()
    ensures Reaches(LOCKED, Power(PowerHeld, 0, 1, 0, Free))
  {
    assert Reaches([], INITIAL);
    Then([], INITIAL, Arrival(RadioPower(1)), Power(Start, 0, 0, 0, Free));
    Then([] + [Arrival(RadioPower(1))], Power(Start, 0, 0, 0, Free), GO, Power(PowerHeld, 0, 1, 0, Free));
  }

  lemma {:induction false} ReadsModes(es: seq<Event>)
    requires Reaches(es, Power(PowerHeld, 0, 1, 0, Free))
    ensures Reaches(es + [GO] + [GO], Power(PowerAfter, 0, 1, 0, Free))
  {
    Then(es, Power(PowerHeld, 0, 1, 0, Free), GO, Power(PowerModes, 0, 1, 0, HeldBy(0)));
    Then(es + [GO], Power(PowerModes, 0, 1, 0, HeldBy(0)), GO, Power(PowerAfter, 0, 1, 0, Free));
  }

  lemma {:induction false} Repairs(es: seq<Event>)
    requires Reaches(es, Power(PowerAfter, 0, 1, 0, Free))
    ensures Reaches(es + [OTHER] + [GO], Power(PowerAnswered, 1, 1, 0, Free))
  {
    Then(es, Power(PowerAfter, 0, 1, 0, Free), OTHER, Power(PowerRepair, 0, 1, 0, HeldBy(0)));
    Then(es + [OTHER], Power(PowerRepair, 0, 1, 0, HeldBy(0)), GO, Power(PowerAnswered, 1, 1, 0, Free));
  }

  lemma {:induction false} GoesOn(es: seq<Event>)
    requires Reaches(es, Power(PowerAfter, 0, 1, 0, Free))
    ensures Reaches(es + [GO], Power(PowerAnswered, 1, 1, 0, Free))
  {
    Then(es, Power(PowerAfter, 0, 1, 0, Free), GO, Power(PowerAnswered, 1, 1, 0, Free));
  }

  lemma {:induction false} StaysOff(es: seq<Event>)
    requires Reaches(es, Power(PowerHeld, 0, 1, 0, Free))
    ensures Reaches(es + [OTHER], Power(PowerAnswered, 1, 1, 0, Free))
  {
    Then(es, Power(PowerHeld, 0, 1, 0, Free), OTHER, Power(PowerAnswered, 1, 1, 0, Free));
  }

  lemma {:induction false} LeavesLock(es: seq<Event>)
    requires Reaches(es, Power(PowerAnswered, 1, 1, 0, Free))
    ensures Reaches(es + [GO], Power(Finished, 1, 1, 1, Free))
  {
    Then(es, Power(PowerAnswered, 1, 1, 0, Free), GO, Power(Finished, 1, 1, 1, Free));
  }

  /** Switching SIM 1 on under its own power lock: the work modes are read under their
      mutex, which is taken again for the repair after a SIM swap. Switching it off
      does not touch them.  */
  lemma {:induction false} PowerRuns()
    ensures Reaches(LOCKED + [GO] + [GO] + [GO] + [GO], Power(Finished, 1, 1, 1, Free))
    ensures Reaches(LOCKED + [GO] + [GO] + [OTHER] + [GO] + [GO], Power(Finished, 1, 1, 1, Free))
    ensures Reaches(LOCKED + [OTHER] + [GO], Power(Finished, 1, 1, 1, Free))
  {
    var on := LOCKED + [GO] + [GO];
    TakesOwnLock();
    ReadsModes(LOCKED);
    GoesOn(on);
    LeavesLock(on + [GO]);
    Repairs(on);
    LeavesLock(on + [OTHER] + [GO]);
    StaysOff(LOCKED);
    LeavesLock(LOCKED + [OTHER]);
  }

  // ----- capability requests -----

  const FIRST_DONE := Thread(Capability(0), Finished, NoEntry, 1, 0, 0, 0, 0)

  /** Both SIMs' APPLY requests have arrived; the first has asked and been answered. */
  function Two(first: Thread, pc: Pc, flag0: bool, flag1: bool, asks0: nat, asks1: nat, passes: nat): State {
    State([first, NewThread(Capability(1)).(pc := pc)], Free, Free, Free, flag0, flag1, asks0, asks1, passes)
  }

  /** The second one past the barrier. */
  function Passed(pc: Pc, entry: Entry, completions: nat, locked: nat, unlocked: nat, modes: Lock): State {
    var locked0, locked1 := if locked > 0 then 1 else 0, if locked > 1 then 1 else 0;
    var unlocked0, unlocked1 := if unlocked > 0 then 1 else 0, if unlocked > 1 then 1 else 0;
    State([FIRST_DONE, Thread(Capability(1), pc, entry, completions, locked0, unlocked0, locked1, unlocked1)],
          if locked0 > unlocked0 then HeldBy(1) else Free, if locked1 > unlocked1 then HeldBy(1) else Free, modes,
          false, false, 1, 1, 1)
  }

  const STEP := Happens(1, Go)
  const BOTH_ARRIVE := [] + [Arrival(Capability(0))] + [Arrival(Capability(1))] + [GO] + [GO] + [GO]
  const BARRIER := BOTH_ARRIVE + [STEP] + [STEP] + [STEP] + [STEP] + [STEP]
  const COMMAND := BARRIER + [STEP] + [STEP] + [STEP] + [STEP] + [STEP]

  lemma {:induction false} FirstAsks()
    ensures Reaches(BOTH_ARRIVE, Two(FIRST_DONE, Start, true, false, 1, 0, 0))
  {
    var one := NewThread(Capability(0));
    var start := State([one], Free, Free, Free, false, false, 0, 0, 0);
    var es := [] + [Arrival(Capability(0))] + [Arrival(Capability(1))];
    assert Reaches([], INITIAL);
    Then([], INITIAL, Arrival(Capability(0)), start);
    Then([] + [Arrival(Capability(0))], start, Arrival(Capability(1)), Two(one, Start, false, false, 0, 0, 0));
    Then(es, Two(one, Start, false, false, 0, 0, 0), GO, Two(one.(pc := Flagged), Start, true, false, 1, 0, 0));
    Then(es + [GO], Two(one.(pc := Flagged), Start, true, false, 1, 0, 0), GO,
         Two(one.(pc := SawFirst), Start, true, false, 1, 0, 0));
    Then(es + [GO] + [GO], Two(one.(pc := SawFirst), Start, true, false, 1, 0, 0), GO,
         Two(FIRST_DONE, Start, true, false, 1, 0, 0));
  }

  lemma {:induction false} SecondAsks(es: seq<Event>)
    requires Reaches(es, Two(FIRST_DONE, Start, true, false, 1, 0, 0))
    ensures Reaches(es + [STEP] + [STEP] + [STEP], Two(FIRST_DONE, SawBoth, true, true, 1, 1, 1))
  {
    Then(es, Two(FIRST_DONE, Start, true, false, 1, 0, 0), STEP, Two(FIRST_DONE, Flagged, true, true, 1, 1, 0));
    Then(es + [STEP], Two(FIRST_DONE, Flagged, true, true, 1, 1, 0), STEP,
         Two(FIRST_DONE, SawFirst, true, true, 1, 1, 0));
    Then(es + [STEP] + [STEP], Two(FIRST_DONE, SawFirst, true, true, 1, 1, 0), STEP,
         Two(FIRST_DONE, SawBoth, true, true, 1, 1, 1));
  }

  lemma {:induction false} ClearsFlags(es: seq<Event>)
    requires Reaches(es, Two(FIRST_DONE, SawBoth, true, true, 1, 1, 1))
    ensures Reaches(es + [STEP] + [STEP], Passed(WantFirst, NoEntry, 0, 0, 0, Free))
  {
    Then(es, Two(FIRST_DONE, SawBoth, true, true, 1, 1, 1), STEP,
         Two(FIRST_DONE, ClearedFirst, false, true, 1, 1, 1));
    Then(es + [STEP], Two(FIRST_DONE, ClearedFirst, false, true, 1, 1, 1), STEP,
         Passed(WantFirst, NoEntry, 0, 0, 0, Free));
  }

  lemma {:induction false} TakesBothLocks(es: seq<Event>)
    requires Reaches(es, Passed(WantFirst, NoEntry, 0, 0, 0, Free))
    ensures Reaches(es + [STEP] + [STEP], Passed(HasBoth, NoEntry, 0, 2, 0, Free))
  {
    Then(es, Passed(WantFirst, NoEntry, 0, 0, 0, Free), STEP, Passed(WantSecond, NoEntry, 0, 1, 0, Free));
    Then(es + [STEP], Passed(WantSecond, NoEntry, 0, 1, 0, Free), STEP, Passed(HasBoth, NoEntry, 0, 2, 0, Free));
  }

  lemma {:induction false} SwapsModes(es: seq<Event>)
    requires Reaches(es, Passed(HasBoth, NoEntry, 0, 2, 0, Free))
    ensures Reaches(es + [STEP] + [STEP] + [STEP], Passed(Sent(0), Armed, 0, 2, 0, Free))
  {
    Then(es, Passed(HasBoth, NoEntry, 0, 2, 0, Free), STEP, Passed(InModes, NoEntry, 0, 2, 0, HeldBy(1)));
    Then(es + [STEP], Passed(InModes, NoEntry, 0, 2, 0, HeldBy(1)), STEP, Passed(OutModes, NoEntry, 0, 2, 0, Free));
    Then(es + [STEP] + [STEP], Passed(OutModes, NoEntry, 0, 2, 0, Free), STEP, Passed(Sent(0), Armed, 0, 2, 0, Free));
  }

  lemma {:induction false} CommandAccepted(es: seq<Event>)
    requires Reaches(es, Passed(Sent(0), Armed, 0, 2, 0, Free))
    ensures Reaches(es + [Happens(1, AtOk)] + [STEP] + [Happens(1, Take)], Passed(Finished, Taken, 0, 2, 0, Free))
  {
    Then(es, Passed(Sent(0), Armed, 0, 2, 0, Free), Happens(1, AtOk), Passed(Accepted, Armed, 0, 2, 0, Free));
    Then(es + [Happens(1, AtOk)], Passed(Accepted, Armed, 0, 2, 0, Free), STEP,
         Passed(Finished, Armed, 0, 2, 0, Free));
    Then(es + [Happens(1, AtOk)] + [STEP], Passed(Finished, Armed, 0, 2, 0, Free), Happens(1, Take),
         Passed(Finished, Taken, 0, 2, 0, Free));
  }

  lemma {:induction false} TakerFinishes(es: seq<Event>)
    requires Reaches(es, Passed(Finished, Taken, 0, 2, 0, Free))
    ensures Reaches(es + [Happens(1, Handle)] + [Happens(1, Handle)] + [Happens(1, Handle)],
                    Passed(Finished, Completed, 1, 2, 2, Free))
  {
    Then(es, Passed(Finished, Taken, 0, 2, 0, Free), Happens(1, Handle), Passed(Finished, Freed0, 0, 2, 1, Free));
    Then(es + [Happens(1, Handle)], Passed(Finished, Freed0, 0, 2, 1, Free), Happens(1, Handle),
         Passed(Finished, Freed1, 0, 2, 2, Free));
    Then(es + [Happens(1, Handle)] + [Happens(1, Handle)],
         Passed(Finished, Freed1, 0, 2, 2, Free), Happens(1, Handle), Passed(Finished, Completed, 1, 2, 2, Free));
  }

  lemma {:induction false} CommandFails(es: seq<Event>)
    requires Reaches(es, Passed(Sent(0), Armed, 0, 2, 0, Free))
    ensures Reaches(es + [Happens(1, AtFail)] + [STEP], Passed(Unwind0, NoEntry, 0, 2, 0, Free))
  {
    Then(es, Passed(Sent(0), Armed, 0, 2, 0, Free), Happens(1, AtFail), Passed(Refused, NoEntry, 0, 2, 0, Free));
    Then(es + [Happens(1, AtFail)], Passed(Refused, NoEntry, 0, 2, 0, Free), STEP,
         Passed(Unwind0, NoEntry, 0, 2, 0, Free));
  }

  lemma {:induction false} Unlocks(es: seq<Event>)
    requires Reaches(es, Passed(Unwind0, NoEntry, 0, 2, 0, Free))
    ensures Reaches(es + [STEP] + [STEP], Passed(Answer, NoEntry, 0, 2, 2, Free))
  {
    Then(es, Passed(Unwind0, NoEntry, 0, 2, 0, Free), STEP, Passed(Unwind1, NoEntry, 0, 2, 1, Free));
    Then(es + [STEP], Passed(Unwind1, NoEntry, 0, 2, 1, Free), STEP, Passed(Answer, NoEntry, 0, 2, 2, Free));
  }

  lemma {:induction false} AnswersLast(es: seq<Event>)
    requires Reaches(es, Passed(Answer, NoEntry, 0, 2, 2, Free))
    ensures Reaches(es + [STEP], Passed(Finished, NoEntry, 1, 2, 2, Free))
  {
    Then(es, Passed(Answer, NoEntry, 0, 2, 2, Free), STEP, Passed(Finished, NoEntry, 1, 2, 2, Free));
  }

  lemma {:induction false} NothingToChange(es: seq<Event>)
    requires Reaches(es, Passed(HasBoth, NoEntry, 0, 2, 0, Free))
    ensures Reaches(es + [Happens(1, Decline)], Passed(Unwind0, NoEntry, 0, 2, 0, Free))
  {
    Then(es, Passed(HasBoth, NoEntry, 0, 2, 0, Free), Happens(1, Decline), Passed(Unwind0, NoEntry, 0, 2, 0, Free));
  }

  /** Both SIMs ask for a capability: the first is answered at the barrier, the second
      passes it, swaps the modes under their mutex and sends the command without it.
      If it is accepted, the rest is left to the indication; if it fails, the request
      unlocks first and answers then, as it does without a command if nothing changes.  */
  lemma {:induction false} CapabilityRuns()
    ensures Reaches(COMMAND + [Happens(1, AtOk)] + [STEP] + [Happens(1, Take)]
                    + [Happens(1, Handle)] + [Happens(1, Handle)] + [Happens(1, Handle)],
                    Passed(Finished, Completed, 1, 2, 2, Free))
    ensures Reaches(COMMAND + [Happens(1, AtFail)] + [STEP] + [STEP] + [STEP], Passed(Answer, NoEntry, 0, 2, 2, Free))
    ensures Reaches(COMMAND + [Happens(1, AtFail)] + [STEP] + [STEP] + [STEP] + [STEP],
                    Passed(Finished, NoEntry, 1, 2, 2, Free))
    ensures Reaches(BARRIER + [STEP] + [STEP] + [Happens(1, Decline)] + [STEP] + [STEP] + [STEP],
                    Passed(Finished, NoEntry, 1, 2, 2, Free))
  {
    FirstAsks();
    SecondAsks(BOTH_ARRIVE);
    ClearsFlags(BOTH_ARRIVE + [STEP] + [STEP] + [STEP]);
    TakesBothLocks(BARRIER);
    SwapsModes(BARRIER + [STEP] + [STEP]);
    CommandAccepted(COMMAND);
    TakerFinishes(COMMAND + [Happens(1, AtOk)] + [STEP] + [Happens(1, Take)]);
    CommandFails(COMMAND);
    Unlocks(COMMAND + [Happens(1, AtFail)] + [STEP]);
    AnswersLast(COMMAND + [Happens(1, AtFail)] + [STEP] + [STEP] + [STEP]);
    NothingToChange(BARRIER + [STEP] + [STEP]);
    Unlocks(BARRIER + [STEP] + [STEP] + [Happens(1, Decline)]);
    AnswersLast(BARRIER + [STEP] + [STEP] + [Happens(1, Decline)] + [STEP] + [STEP]);
  }
}
