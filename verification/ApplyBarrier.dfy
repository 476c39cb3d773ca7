/** The barrier in front of a capability APPLY: a request goes on only if both SIMs'
    flags are set, and clears both.  */
module ApplyBarrier {
  import opened Sims
  import opened Options
  import opened TestModeProtocol

  function Flag(s: State, sim: Sim): bool {
    if sim == 0 then s.flag0 else s.flag1
  }

  function Asks(s: State, sim: Sim): nat {
    if sim == 0 then s.asks0 else s.asks1
  }

  /** Between setting the own flag and having cleared both. */
  predicate Inside(th: Thread) {
    th.pc == Flagged || th.pc == SawFirst || th.pc == SawBoth || th.pc == ClearedFirst
  }

  /** Has found both flags set and is still to clear that of `sim`. */
  predicate Clears(th: Thread, sim: Sim) {
    th.pc == SawBoth || (sim == 1 && th.pc == ClearedFirst)
  }

  ghost predicate Clearing(s: State, sim: Sim) {
    exists u :: 0 <= u < |s.threads| && Clears(s.threads[u], sim)
  }

  /** An ask that no pass has used: the flag is set and not about to be cleared. */
  ghost function Spare(s: State, sim: Sim): nat {
    if Flag(s, sim) && !Clearing(s, sim) then 1 else 0
  }

  /** Every pass has used up one ask of each SIM. */
  ghost predicate Accounted(s: State) {
    forall sim: Sim :: s.passes + Spare(s, sim) == Asks(s, sim)
  }

  /** The step meets another request inside the barrier: it passes although a flag
      has been or is being cleared for another pass, or it asks while its flag is
      still to be cleared by another.  */
  ghost predicate Races(s: State, t: Token, m: Move)
    requires t < |s.threads|
  {
    var th := s.threads[t];
    m == Go &&
    ((th.pc == SawFirst && s.flag1 && (!s.flag0 || Clearing(s, 1)))
     || (th.pc == Start && th.kind.Capability? && !Flag(s, th.kind.sim) && Clearing(s, th.kind.sim)))
  }

  lemma {:induction false} ClearingElsewhere(s: State, t: Token, th: Thread, r: State, sim: Sim)
    requires t < |s.threads| && r.threads == s.threads[t := th]
    requires Clears(s.threads[t], sim) == Clears(th, sim)
    ensures Clearing(r, sim) == Clearing(s, sim)
  {
    if Clearing(s, sim) {
      var u :| 0 <= u < |s.threads| && Clears(s.threads[u], sim);
      assert Clears(r.threads[u], sim);
    }
    if Clearing(r, sim) {
      var u :| 0 <= u < |r.threads| && Clears(r.threads[u], sim);
      assert Clears(s.threads[u], sim);
    }
  }

  lemma {:induction false} AskAccounted(s: State, t: Token)
    requires t < |s.threads| && Accounted(s)
    requires s.threads[t].pc == Start && s.threads[t].kind.Capability?
    ensures Accounted(Next(s, t, Go).value) <==> !Races(s, t, Go)
  {
    var sim := s.threads[t].kind.sim;
    var th := s.threads[t].(pc := Flagged);
    var r := Next(s, t, Go).value;
    assert r == Do(s, t, Effect(th, Keep, Keep, Keep, Ask(sim)));
    ClearingElsewhere(s, t, th, r, 0);
    ClearingElsewhere(s, t, th, r, 1);
    assert s.passes + Spare(s, sim) == Asks(s, sim) && s.passes + Spare(s, 1 - sim) == Asks(s, 1 - sim);
    assert Spare(r, 1 - sim) == Spare(s, 1 - sim) && Asks(r, 1 - sim) == Asks(s, 1 - sim);
    assert r.passes + Spare(r, sim) == Asks(r, sim) <==> !Races(s, t, Go);
    assert Accounted(r) <==> r.passes + Spare(r, sim) == Asks(r, sim);
  }

  lemma {:induction false} PassAccounted(s: State, t: Token)
    requires t < |s.threads| && Accounted(s) && s.threads[t].pc == SawFirst && s.flag1
    ensures Accounted(Next(s, t, Go).value) <==> !Races(s, t, Go)
  {
    var th := s.threads[t].(pc := SawBoth);
    var r := Next(s, t, Go).value;
    assert r == Do(s, t, Effect(th, Keep, Keep, Keep, Pass));
    assert Clears(r.threads[t], 0) && Clears(r.threads[t], 1);
    assert Spare(r, 0) == Spare(r, 1) == 0;
    assert s.passes + Spare(s, 0) == Asks(s, 0) && s.passes + Spare(s, 1) == Asks(s, 1);
    if Clearing(s, 0) {
      var u :| 0 <= u < |s.threads| && Clears(s.threads[u], 0);
      assert Clears(s.threads[u], 1);
    }
    if Accounted(r) {
      assert r.passes + Spare(r, 0) == Asks(r, 0) && r.passes + Spare(r, 1) == Asks(r, 1);
    }
  }

  lemma {:induction false} ClearAccounted(s: State, t: Token)
    requires t < |s.threads| && Accounted(s)
    requires s.threads[t].pc == SawBoth || s.threads[t].pc == ClearedFirst
    ensures Accounted(Next(s, t, Go).value)
  {
    var th := s.threads[t];
    var r := Next(s, t, Go).value;
    assert Clears(th, 1);
    assert s.passes + Spare(s, 0) == Asks(s, 0) && s.passes + Spare(s, 1) == Asks(s, 1);
    if th.pc == SawBoth {
      assert r == Do(s, t, Effect(th.(pc := ClearedFirst), Keep, Keep, Keep, Clear(0)));
      assert Clears(th, 0) && Clears(r.threads[t], 1);
    } else {
      assert r == Do(s, t, Effect(th.(pc := WantFirst), Keep, Keep, Keep, Clear(1)));
      ClearingElsewhere(s, t, r.threads[t], r, 0);
    }
  }

  /** Every pass uses up one ask of each SIM, if and only if the step does not race
      with another request inside the barrier.  */
  lemma {:induction false} StepAccounted(s: State, t: Token, m: Move)
    requires t < |s.threads| && Accounted(s) && Next(s, t, m).Some?
    ensures Accounted(Next(s, t, m).value) <==> !Races(s, t, m)
  {
    var th := s.threads[t];
    if m == Go && th.pc == Start && th.kind.Capability? {
      AskAccounted(s, t);
    } else if m == Go && th.pc == SawFirst && s.flag1 {
      PassAccounted(s, t);
    } else if m == Go && (th.pc == SawBoth || th.pc == ClearedFirst) {
      ClearAccounted(s, t);
    } else {
      var e := EffectOf(th, s.flag0, s.flag1, m).value;
      QuietEffect(th, s.flag0, s.flag1, m);
      var r := Next(s, t, m).value;
      ClearingElsewhere(s, t, e.th, r, 0);
      ClearingElsewhere(s, t, e.th, r, 1);
      assert forall i: Sim :: Spare(r, i) == Spare(s, i) && Asks(r, i) == Asks(s, i);
      assert forall i: Sim :: s.passes + Spare(s, i) == Asks(s, i);
    }
  }

  /** All other statements leave the flags alone and clear nothing. */
  lemma {:induction false} QuietEffect(th: Thread, flag0: bool, flag1: bool, m: Move)
    requires EffectOf(th, flag0, flag1, m).Some?
    requires m == Go ==>
      !(th.pc == Start && th.kind.Capability?) && !(th.pc == SawFirst && flag1)
      && th.pc != SawBoth && th.pc != ClearedFirst
    ensures var e := EffectOf(th, flag0, flag1, m).value;
      e.flags == NoFlag && forall sim: Sim :: Clears(e.th, sim) == Clears(th, sim)
  {
  }

  /** No two capability requests are inside the barrier at once. */
  ghost predicate OneInside(s: State) {
    forall t, u ::
      (0 <= t < |s.threads| && 0 <= u < |s.threads| && Inside(s.threads[t]) && Inside(s.threads[u])) ==> t == u
  }

  ghost predicate TakesTurns(s: State, es: seq<Event>)
    decreases |es|
  {
    OneInside(s) && (es != [] && Apply(s, es[0]).Some? ==> TakesTurns(Apply(s, es[0]).value, es[1..]))
  }

  /** Whoever has seen SIM 0's flag set can rely on it. */
  ghost predicate SeenStillSet(s: State) {
    forall t :: 0 <= t < |s.threads| && s.threads[t].pc == SawFirst ==> s.flag0
  }

  lemma {:induction false} TurnDoesNotRace(s: State, t: Token, m: Move)
    requires t < |s.threads| && Next(s, t, m).Some?
    requires OneInside(s) && OneInside(Next(s, t, m).value) && SeenStillSet(s)
    ensures !Races(s, t, m)
  {
    if Races(s, t, m) {
      var th, r := s.threads[t], Next(s, t, m).value;
      var sim := if th.pc == SawFirst then 1 else th.kind.sim;
      var u :| 0 <= u < |s.threads| && Clears(s.threads[u], sim);
      assert Inside(s.threads[u]) && u != t && r.threads[u] == s.threads[u];
      assert Inside(r.threads[t]);
    }
  }

  lemma {:induction false} TurnKeepsSeen(s: State, t: Token, m: Move)
    requires t < |s.threads| && Next(s, t, m).Some? && OneInside(s) && SeenStillSet(s)
    ensures SeenStillSet(Next(s, t, m).value)
  {
    var th := s.threads[t];
    var e := EffectOf(th, s.flag0, s.flag1, m).value;
    SeenEffect(th, s.flag0, s.flag1, m);
    var r := Next(s, t, m).value;
    forall u | 0 <= u < |r.threads| && r.threads[u].pc == SawFirst ensures r.flag0 {
      if u != t { assert Inside(s.threads[u]) && s.threads[u].pc == SawFirst; }
    }
  }

  lemma {:induction false} SeenEffect(th: Thread, flag0: bool, flag1: bool, m: Move)
    requires EffectOf(th, flag0, flag1, m).Some?
    ensures var e := EffectOf(th, flag0, flag1, m).value;
      && (e.th.pc == SawFirst ==> e.flags == NoFlag && (flag0 || th.pc == SawFirst))
      && (e.flags == Clear(0) ==> Inside(th))
  {
  }

  /** Capability requests past the barrier. */
  function Applying(ths: seq<Thread>): nat {
    if ths == [] then 0 else (if IsApplying(ths[0]) then 1 else 0) + Applying(ths[1..])
  }

  predicate IsApplying(th: Thread) {
    th.kind.Capability? && Saw(th) == 2
  }

  lemma {:induction false} ApplyingUpdate(ths: seq<Thread>, t: nat, th: Thread)
    requires t < |ths|
    ensures Applying(ths[t := th]) + (if IsApplying(ths[t]) then 1 else 0)
         == Applying(ths) + if IsApplying(th) then 1 else 0
  {
    if t == 0 {
      assert ths[0 := th][1..] == ths[1..];
    } else {
      ApplyingUpdate(ths[1..], t - 1, th);
      assert ths[t := th][1..] == ths[1..][t - 1 := th];
    }
  }

  lemma {:induction false} ApplyingAppend(ths: seq<Thread>, th: Thread)
    ensures Applying(ths + [th]) == Applying(ths) + if IsApplying(th) then 1 else 0
  {
    if ths == [] {
      assert ths + [th] == [th] && [th][1..] == [];
    } else {
      ApplyingAppend(ths[1..], th);
      assert (ths + [th])[1..] == ths[1..] + [th];
    }
  }

  lemma {:induction false} ApplyingStatement(th: Thread, flag0: bool, flag1: bool, other: bool)
    requires ThreadEffect(th, flag0, flag1, other).Some?
    ensures var e := ThreadEffect(th, flag0, flag1, other).value;
      IsApplying(e.th) ==> IsApplying(th) || e.flags == Pass
  {
  }

  lemma {:induction false} ApplyingEffect(th: Thread, flag0: bool, flag1: bool, m: Move)
    requires EffectOf(th, flag0, flag1, m).Some?
    ensures var e := EffectOf(th, flag0, flag1, m).value;
      IsApplying(e.th) ==> IsApplying(th) || e.flags == Pass
  {
    if m == Go || m == Decline {
      ApplyingStatement(th, flag0, flag1, m == Decline);
    }
  }

  lemma {:induction false} StepApplying(s: State, e: Event)
    requires Applying(s.threads) <= s.passes && Apply(s, e).Some?
    ensures Applying(Apply(s, e).value.threads) <= Apply(s, e).value.passes
  {
    match e
    case Arrival(kind) => ApplyingAppend(s.threads, NewThread(kind));
    case Happens(t, m) =>
      var e := EffectOf(s.threads[t], s.flag0, s.flag1, m).value;
      ApplyingEffect(s.threads[t], s.flag0, s.flag1, m);
      ApplyingUpdate(s.threads, t, e.th);
  }

  lemma {:induction false} ArrivalAccounted(s: State, kind: Kind)
    requires Accounted(s)
    ensures Accounted(Arrive(s, kind)) && (SeenStillSet(s) ==> SeenStillSet(Arrive(s, kind)))
  {
    var r := Arrive(s, kind);
    forall sim: Sim ensures Clearing(r, sim) == Clearing(s, sim) {
      if Clearing(s, sim) {
        var u :| 0 <= u < |s.threads| && Clears(s.threads[u], sim);
        assert Clears(r.threads[u], sim);
      }
    }
    assert forall sim: Sim :: s.passes + Spare(s, sim) == Asks(s, sim);
    assert forall sim: Sim :: Spare(r, sim) == Spare(s, sim) && Asks(r, sim) == Asks(s, sim);
  }

  /** Over whole runs in which capability requests take turns inside the barrier:
      every pass has used up one ask of each SIM, and no more requests are past the
      barrier than have passed it. Late rejections change nothing about this.  */
  lemma {:induction false} EveryPassUsesAsks(s: State, es: seq<Event>)
    requires Accounted(s) && SeenStillSet(s) && Applying(s.threads) <= s.passes
    requires TakesTurns(s, es) && Run(s, es).Some?
    ensures var r := Run(s, es).value;
      && (forall sim: Sim :: r.passes + Spare(r, sim) == Asks(r, sim))
      && Applying(r.threads) <= r.passes
    decreases |es|
  {
    if es != [] {
      var r := Apply(s, es[0]).value;
      StepApplying(s, es[0]);
      match es[0] {
        case Arrival(kind) => ArrivalAccounted(s, kind);
        case Happens(t, m) =>
          TurnDoesNotRace(s, t, m);
          StepAccounted(s, t, m);
          TurnKeepsSeen(s, t, m);
      }
      EveryPassUsesAsks(r, es[1..]);
    }
  }

  lemma {:induction false} InitiallyAccounted()
    ensures Accounted(INITIAL) && SeenStillSet(INITIAL) && Applying(INITIAL.threads) <= INITIAL.passes
  {
  }

  // ----- requests that overlap -----

  /** The state of two requests inside the barrier, with `asked` SIMs' asks. */
  function Waiting(a: Thread, b: Thread, flag0: bool, flag1: bool, asked: nat, passes: nat): State {
    State([a, b], Free, Free, Free, flag0, flag1, if asked > 0 then 1 else 0, if asked > 1 then 1 else 0, passes)
  }

  function At(sim: Sim, pc: Pc): Thread {
    NewThread(Capability(sim)).(pc := pc)
  }

  lemma {:induction false} BothArrive()
    ensures Reaches([Arrival(Capability(0)), Arrival(Capability(1))], Waiting(At(0, Start), At(1, Start), false, false, 0, 0))
  {
    var s := Arrive(INITIAL, Capability(0));
    assert Reaches([], INITIAL);
    Then([], INITIAL, Arrival(Capability(0)), s);
    assert [] + [Arrival(Capability(0))] == [Arrival(Capability(0))];
    Then([Arrival(Capability(0))], s, Arrival(Capability(1)), Arrive(s, Capability(1)));
    assert [Arrival(Capability(0))] + [Arrival(Capability(1))] == [Arrival(Capability(0)), Arrival(Capability(1))];
    assert Arrive(s, Capability(1)).threads == [At(0, Start), At(1, Start)];
  }

  lemma {:induction false} BothAsk(es: seq<Event>)
    requires Reaches(es, Waiting(At(0, Start), At(1, Start), false, false, 0, 0))
    ensures Reaches(es + [Happens(0, Go)] + [Happens(1, Go)], Waiting(At(0, Flagged), At(1, Flagged), true, true, 2, 0))
  {
    var s := Waiting(At(0, Flagged), At(1, Start), true, false, 1, 0);
    Then(es, Waiting(At(0, Start), At(1, Start), false, false, 0, 0), Happens(0, Go), s);
    Then(es + [Happens(0, Go)], s, Happens(1, Go), Waiting(At(0, Flagged), At(1, Flagged), true, true, 2, 0));
  }

  lemma {:induction false} FirstPasses(es: seq<Event>)
    requires Reaches(es, Waiting(At(0, Flagged), At(1, Flagged), true, true, 2, 0))
    ensures Reaches(es + [Happens(0, Go)] + [Happens(0, Go)], Waiting(At(0, SawBoth), At(1, Flagged), true, true, 2, 1))
  {
    var s := Waiting(At(0, SawFirst), At(1, Flagged), true, true, 2, 0);
    Then(es, Waiting(At(0, Flagged), At(1, Flagged), true, true, 2, 0), Happens(0, Go), s);
    Then(es + [Happens(0, Go)], s, Happens(0, Go), Waiting(At(0, SawBoth), At(1, Flagged), true, true, 2, 1));
  }

  lemma {:induction false} SecondPasses(es: seq<Event>)
    requires Reaches(es, Waiting(At(0, SawBoth), At(1, Flagged), true, true, 2, 1))
    ensures Reaches(es + [Happens(1, Go)] + [Happens(1, Go)], Waiting(At(0, SawBoth), At(1, SawBoth), true, true, 2, 2))
  {
    var s := Waiting(At(0, SawBoth), At(1, SawFirst), true, true, 2, 1);
    Then(es, Waiting(At(0, SawBoth), At(1, Flagged), true, true, 2, 1), Happens(1, Go), s);
    Then(es + [Happens(1, Go)], s, Happens(1, Go), Waiting(At(0, SawBoth), At(1, SawBoth), true, true, 2, 2));
  }

  /** Two overlapping APPLY requests, one of each SIM: both find both flags set, so
      two commands will be sent on one ask of each SIM.  */
  lemma {:induction false} OverlapPassesTwice()
    ensures var es := [Arrival(Capability(0)), Arrival(Capability(1)), Happens(0, Go), Happens(1, Go),
                       Happens(0, Go), Happens(0, Go), Happens(1, Go), Happens(1, Go)];
      && Run(INITIAL, es).Some?
      && var s := Run(INITIAL, es).value;
         s.passes == 2 && s.asks0 == s.asks1 == 1 && Applying(s.threads) == 2 && !Accounted(s)
  {
    var a, b := Happens(0, Go), Happens(1, Go);
    var es := [Arrival(Capability(0)), Arrival(Capability(1))];
    BothArrive();
    BothAsk(es);
    FirstPasses(es + [a] + [b]);
    SecondPasses(es + [a] + [b] + [a] + [a]);
    assert es + [a] + [b] + [a] + [a] + [b] + [b] == [Arrival(Capability(0)), Arrival(Capability(1)), a, b, a, a, b, b];
    BothPast();
  }

  lemma {:induction false} BothPast()
    ensures var s := Waiting(At(0, SawBoth), At(1, SawBoth), true, true, 2, 2);
      Applying(s.threads) == 2 && !Accounted(s)
  {
    var s := Waiting(At(0, SawBoth), At(1, SawBoth), true, true, 2, 2);
    assert s.threads[1..] == [At(1, SawBoth)] && s.threads[1..][1..] == [];
    assert s.passes + Spare(s, 0) > Asks(s, 0);
  }
}
