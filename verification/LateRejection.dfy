/** What a rejection of the test-mode command does that arrives after its entry has
    been completed.  */
module LateRejection {
  import opened Sims
  import opened Options
  import opened TestModeProtocol

  lemma {:induction false} RunFour(s: State, t: Token, s1: State, s2: State, s3: State, s4: State)
    requires t < |s.threads| == |s1.threads| == |s2.threads| == |s3.threads|
    requires Next(s, t, LateFail) == Some(s1) && Next(s1, t, Go) == Some(s2)
    requires Next(s2, t, Go) == Some(s3) && Next(s3, t, Go) == Some(s4)
    ensures Run(s, [Happens(t, LateFail), Happens(t, Go), Happens(t, Go), Happens(t, Go)]) == Some(s4)
  {
    var go := Happens(t, Go);
    assert [Happens(t, LateFail), go, go, go][1..] == [go, go, go];
    assert [go, go, go][1..] == [go, go] && [go, go][1..] == [go] && [go][1..] == [];
    assert Run(s3, [go]) == Run(s4, []);
    assert Run(s2, [go, go]) == Run(s3, [go]);
    assert Run(s1, [go, go, go]) == Run(s2, [go, go]);
  }

  /** A rejection that arrives after the entry has been completed completes the
      token a second time and releases power lock 0 a second time, even if another
      transaction holds it by then.  */
  lemma {:induction false} LateRejectionCompletesTwice(s: State, t: Token)
    requires Inv(s) && t < |s.threads|
    requires s.threads[t].kind == NetType && s.threads[t].pc.Sent? && s.threads[t].entry == Completed
    ensures var r := Run(s, [Happens(t, LateFail), Happens(t, Go), Happens(t, Go), Happens(t, Go)]);
      r.Some? && |r.value.threads| == |s.threads| && r.value.power0 == Free
      && r.value.threads[t].completions == 2 && r.value.threads[t].unlocked0 == 2
  {
    var th := s.threads[t];
    assert ThreadOk(th) && th.completions == 1 && th.unlocked0 == 1;
    var e1, e2, e3, e4 := LateEffects(th);
    var s1 := Do(s, t, e1);
    var s2 := Do(s1, t, e2);
    var s3 := Do(s2, t, e3);
    RunFour(s, t, s1, s2, s3, Do(s3, t, e4));
  }

  lemma {:induction false} LateEffects(th: Thread) returns (e1: Effect, e2: Effect, e3: Effect, e4: Effect)
    requires th.kind == NetType && th.pc.Sent? && th.entry == Completed
    ensures forall f0, f1 :: EffectOf(th, f0, f1, LateFail) == Some(e1)
    ensures forall f0, f1 :: EffectOf(e1.th, f0, f1, Go) == Some(e2)
    ensures forall f0, f1 :: EffectOf(e2.th, f0, f1, Go) == Some(e3)
    ensures forall f0, f1 :: EffectOf(e3.th, f0, f1, Go) == Some(e4)
    ensures e1.power0 == e1.power1 == e1.modes == Keep
    ensures e2.power0 == e2.power1 == Keep && e2.modes == Release
    ensures e3.power0 == e3.power1 == e3.modes == Keep
    ensures e4.power0 == Release && e4.power1 == e4.modes == Keep
    ensures e4.th.completions == th.completions + 1 && e4.th.unlocked0 == th.unlocked0 + 1
  {
    e1 := Silent(th.(pc := Refused));
    e2 := UnlockModes(e1.th.(pc := Answer));
    e3 := Silent(Complete(e2.th).(pc := Unwind0));
    e4 := Unlock0(e3.th.(pc := Unwind1));
  }

  // ----- the state is reachable -----

  /** The state of one network-type request that holds or has held all locks. */
  function One(pc: Pc, entry: Entry, completions: nat, locked: nat, unlocked: nat,
               power0: Lock, power1: Lock, modes: Lock): State {
    var locked0, locked1 := if locked > 0 then 1 else 0, if locked > 1 then 1 else 0;
    var unlocked0, unlocked1 := if unlocked > 0 then 1 else 0, if unlocked > 1 then 1 else 0;
    State([Thread(NetType, pc, entry, completions, locked0, unlocked0, locked1, unlocked1)],
          power0, power1, modes, false, false, 0, 0, 0)
  }

  const GO := Happens(0, Go)
  const HANDLE := Happens(0, Handle)

  lemma {:induction false} TakesLocks()
    ensures Reaches([Arrival(NetType), GO, GO, GO], One(HasBoth, NoEntry, 0, 2, 0, HeldBy(0), HeldBy(0), Free))
  {
    assert Reaches([], INITIAL);
    var s1 := One(Start, NoEntry, 0, 0, 0, Free, Free, Free);
    var s2 := One(WantFirst, NoEntry, 0, 0, 0, Free, Free, Free);
    var s3 := One(WantSecond, NoEntry, 0, 1, 0, HeldBy(0), Free, Free);
    Then([], INITIAL, Arrival(NetType), s1);
    Then([] + [Arrival(NetType)], s1, GO, s2);
    Then([] + [Arrival(NetType)] + [GO], s2, GO, s3);
    Then([] + [Arrival(NetType)] + [GO] + [GO], s3, GO, One(HasBoth, NoEntry, 0, 2, 0, HeldBy(0), HeldBy(0), Free));
    assert [] + [Arrival(NetType)] + [GO] + [GO] + [GO] == [Arrival(NetType), GO, GO, GO];
  }

  lemma {:induction false} SendsCommand(es: seq<Event>)
    requires Reaches(es, One(HasBoth, NoEntry, 0, 2, 0, HeldBy(0), HeldBy(0), Free))
    ensures Reaches(es + [GO] + [GO] + [Happens(0, Take)],
                    One(Sent(0), Taken, 0, 2, 0, HeldBy(0), HeldBy(0), HeldBy(0)))
  {
    var s1 := One(InModes, NoEntry, 0, 2, 0, HeldBy(0), HeldBy(0), HeldBy(0));
    var s2 := One(Sent(0), Armed, 0, 2, 0, HeldBy(0), HeldBy(0), HeldBy(0));
    Then(es, One(HasBoth, NoEntry, 0, 2, 0, HeldBy(0), HeldBy(0), Free), GO, s1);
    Then(es + [GO], s1, GO, s2);
    Then(es + [GO] + [GO], s2, Happens(0, Take), One(Sent(0), Taken, 0, 2, 0, HeldBy(0), HeldBy(0), HeldBy(0)));
  }

  lemma {:induction false} EntryCompletes(es: seq<Event>)
    requires Reaches(es, One(Sent(0), Taken, 0, 2, 0, HeldBy(0), HeldBy(0), HeldBy(0)))
    ensures Reaches(es + [HANDLE] + [HANDLE] + [HANDLE], One(Sent(0), Completed, 1, 2, 2, Free, Free, HeldBy(0)))
  {
    var s1 := One(Sent(0), Freed0, 0, 2, 1, Free, HeldBy(0), HeldBy(0));
    var s2 := One(Sent(0), Freed1, 0, 2, 2, Free, Free, HeldBy(0));
    Then(es, One(Sent(0), Taken, 0, 2, 0, HeldBy(0), HeldBy(0), HeldBy(0)), HANDLE, s1);
    Then(es + [HANDLE], s1, HANDLE, s2);
    Then(es + [HANDLE] + [HANDLE], s2, HANDLE, One(Sent(0), Completed, 1, 2, 2, Free, Free, HeldBy(0)));
  }

  lemma {:induction false} RunConcat(s: State, a: seq<Event>, b: seq<Event>)
    requires Run(s, a).Some?
    ensures Run(s, a + b) == Run(Run(s, a).value, b)
    decreases |a|
  {
    if a == [] {
      assert a + b == b;
    } else {
      assert (a + b)[1..] == a[1..] + b;
      RunConcat(Apply(s, a[0]).value, a[1..], b);
    }
  }

  /** From the initial state: the indication overtakes the answer, its handler
      completes the token and releases both power locks, and then the command is
      rejected. The token has been completed twice.  */
  lemma {:induction false} LateRejectionRun()
    ensures var es := [Arrival(NetType), GO, GO, GO, GO, GO, Happens(0, Take), HANDLE, HANDLE, HANDLE,
                       Happens(0, LateFail), GO, GO, GO];
      && Run(INITIAL, es).Some?
      && var s := Run(INITIAL, es).value;
         |s.threads| == 1 && s.threads[0].completions == 2 && s.threads[0].unlocked0 == 2
  {
    var start := [Arrival(NetType), GO, GO, GO];
    TakesLocks();
    SendsCommand(start);
    EntryCompletes(start + [GO] + [GO] + [Happens(0, Take)]);
    var es := start + [GO] + [GO] + [Happens(0, Take)] + [HANDLE] + [HANDLE] + [HANDLE];
    var late := [Happens(0, LateFail), GO, GO, GO];
    var s := One(Sent(0), Completed, 1, 2, 2, Free, Free, HeldBy(0));
    RunConcat(INITIAL, es, late);
    CompletedIsInv();
    LateRejectionCompletesTwice(s, 0);
    assert es + late == [Arrival(NetType), GO, GO, GO, GO, GO, Happens(0, Take), HANDLE, HANDLE, HANDLE,
                         Happens(0, LateFail), GO, GO, GO];
  }

  lemma {:induction false} CompletedIsInv()
    ensures Inv(One(Sent(0), Completed, 1, 2, 2, Free, Free, HeldBy(0)))
  {
    var s := One(Sent(0), Completed, 1, 2, 2, Free, Free, HeldBy(0));
    assert ThreadOk(s.threads[0]) && BarrierOk(s, s.threads[0]);
  }
}
