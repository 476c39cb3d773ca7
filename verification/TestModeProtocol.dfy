/** The asynchronous AT+SPTESTMODE transaction: requests on both SIMs, run by any
    number of threads in any interleaving, take two power locks, send the command
    and leave the locks and the token to whoever completes the registered entry,
    the modem's indication or the timeout. Radio power requests compete for the
    same locks.  */
module TestModeProtocol {
  import opened Sims
  import opened Options

  const MAX_RETRIES := 3

  /** A token is the index of its thread. */
  type Token = nat

  datatype Kind = NetType | Capability(sim: Sim) | RadioPower(sim: Sim)

  /** Where the requesting thread is. */
  datatype Pc =
    | Start
    // the APPLY barrier: own flag set; SIM 0's flag seen; both seen; SIM 0's cleared
    | Flagged
    | SawFirst
    | SawBoth
    | ClearedFirst
    // taking the power locks of SIM 0 and SIM 1 in this order
    | WantFirst
    | WantSecond
    | HasBoth
    // inside the work-mode mutex, and (capability only) out of it again
    | InModes
    | OutModes
    // command sent with the entry registered; entry removed, to be sent again
    | Sent(retries: nat)
    | Again(retries: nat)
    // finally rejected; accepted
    | Refused
    | Accepted
    // completing the token and releasing the power locks itself
    | Answer
    | Unwind0
    | Unwind1
    // radio power: own lock held; in the mutex; after it; in it for the repair; answered
    | PowerHeld
    | PowerModes
    | PowerAfter
    | PowerRepair
    | PowerAnswered
    | Finished

  /** The thread's entry in the asynchronous registry and the progress of whoever
      took it out: registered, taken, first lock released, both released, done.  */
  datatype Entry = NoEntry | Armed | Taken | Freed0 | Freed1 | Completed

  datatype Thread = Thread(kind: Kind, pc: Pc, entry: Entry, completions: nat,
                           locked0: nat, unlocked0: nat, locked1: nat, unlocked1: nat)

  datatype Lock = Free | HeldBy(t: Token)

  /** `asks` counts the capability APPLY requests that have found their SIM's flag
      clear and set it, `passes` those that have found both flags set.  */
  datatype State = State(threads: seq<Thread>, power0: Lock, power1: Lock, modes: Lock,
                         flag0: bool, flag1: bool, asks0: nat, asks1: nat, passes: nat)

  /** What may happen next to one thread: its own next statement, the other branch
      of its next decision, the modem's final answer, its entry being taken by the
      indication or the timeout, the next statement of the taker; and a rejection
      that arrives after the entry has been taken.  */
  datatype Move = Go | Decline | AtOk | AtBusy | AtFail | Take | Handle | LateFail

  const INITIAL := State([], Free, Free, Free, false, false, 0, 0, 0)

  function NewThread(kind: Kind): Thread {
    Thread(kind, Start, NoEntry, 0, 0, 0, 0, 0)
  }

  function Arrive(s: State, kind: Kind): State {
    s.(threads := s.threads + [NewThread(kind)])
  }

  // ----- statements -----

  datatype Act = Keep | Acquire | Release

  /** What one statement does: to its own thread, to the three locks, and to the
      flags of the APPLY barrier.  */
  datatype Effect = Effect(th: Thread, power0: Act, power1: Act, modes: Act, flags: FlagAct)

  datatype FlagAct = NoFlag | Ask(sim: Sim) | Pass | Clear(sim: Sim)

  function Silent(th: Thread): Effect {
    Effect(th, Keep, Keep, Keep, NoFlag)
  }

  function Lock0(th: Thread): Effect {
    Effect(th.(locked0 := th.locked0 + 1), Acquire, Keep, Keep, NoFlag)
  }

  function Lock1(th: Thread): Effect {
    Effect(th.(locked1 := th.locked1 + 1), Keep, Acquire, Keep, NoFlag)
  }

  function Unlock0(th: Thread): Effect {
    Effect(th.(unlocked0 := th.unlocked0 + 1), Release, Keep, Keep, NoFlag)
  }

  function Unlock1(th: Thread): Effect {
    Effect(th.(unlocked1 := th.unlocked1 + 1), Keep, Release, Keep, NoFlag)
  }

  function LockModes(th: Thread): Effect {
    Effect(th, Keep, Keep, Acquire, NoFlag)
  }

  function UnlockModes(th: Thread): Effect {
    Effect(th, Keep, Keep, Release, NoFlag)
  }

  function Complete(th: Thread): Thread {
    th.(completions := th.completions + 1)
  }

  /** One statement of the requesting thread; `other` picks the other branch. */
  function ThreadEffect(th: Thread, flag0: bool, flag1: bool, other: bool): Option<Effect> {
    match th.pc
    case Start =>
      (match th.kind
       case NetType => Some(Silent(th.(pc := WantFirst)))
       case Capability(sim) => Some(Effect(th.(pc := Flagged), Keep, Keep, Keep, Ask(sim)))
       case RadioPower(sim) => Some(if sim == 0 then Lock0(th.(pc := PowerHeld)) else Lock1(th.(pc := PowerHeld))))
    case Flagged => Some(Silent(if flag0 then th.(pc := SawFirst) else Complete(th).(pc := Finished)))
    case SawFirst =>
      Some(if flag1 then Effect(th.(pc := SawBoth), Keep, Keep, Keep, Pass) else Silent(Complete(th).(pc := Finished)))
    case SawBoth => Some(Effect(th.(pc := ClearedFirst), Keep, Keep, Keep, Clear(0)))
    case ClearedFirst => Some(Effect(th.(pc := WantFirst), Keep, Keep, Keep, Clear(1)))
    case WantFirst => Some(Lock0(th.(pc := WantSecond)))
    case WantSecond => Some(Lock1(th.(pc := HasBoth)))
    case HasBoth =>
      Some(if other then Silent(th.(pc := if th.kind == NetType then Answer else Unwind0))
           else LockModes(th.(pc := InModes)))
    case InModes =>
      Some(if th.kind != NetType then UnlockModes(th.(pc := OutModes))
           else if other then Silent(th.(pc := Refused))
           else Silent(th.(pc := Sent(0), entry := Armed)))
    case OutModes => Some(Silent(th.(pc := Sent(0), entry := Armed)))
    case Again(retries) => Some(Silent(th.(pc := Sent(retries), entry := Armed)))
    case Refused =>
      Some(if th.kind == NetType then UnlockModes(th.(pc := Answer)) else Silent(th.(pc := Unwind0)))
    case Accepted =>
      Some(if th.kind == NetType then UnlockModes(th.(pc := Finished)) else Silent(th.(pc := Finished)))
    case Answer => Some(Silent(Complete(th).(pc := if th.kind == NetType then Unwind0 else Finished)))
    case Unwind0 => Some(Unlock0(th.(pc := Unwind1)))
    case Unwind1 => Some(Unlock1(th.(pc := if th.kind == NetType then Finished else Answer)))
    case PowerHeld =>
      Some(if other then Silent(Complete(th).(pc := PowerAnswered)) else LockModes(th.(pc := PowerModes)))
    case PowerModes => Some(UnlockModes(th.(pc := PowerAfter)))
    case PowerAfter =>
      Some(if other then LockModes(th.(pc := PowerRepair)) else Silent(Complete(th).(pc := PowerAnswered)))
    case PowerRepair => Some(UnlockModes(Complete(th).(pc := PowerAnswered)))
    case PowerAnswered =>
      Some(if th.kind == RadioPower(0) then Unlock0(th.(pc := Finished)) else Unlock1(th.(pc := Finished)))
    case Sent(_) => None
    case Finished => None
  }

  /** One statement of whoever took the entry out of the registry. */
  function HandlerEffect(th: Thread): Option<Effect> {
    match th.entry
    case Taken => Some(Unlock0(th.(entry := Freed0)))
    case Freed0 => Some(Unlock1(th.(entry := Freed1)))
    case Freed1 => Some(Silent(Complete(th).(entry := Completed)))
    case _ => None
  }

  predicate HasChoice(pc: Pc) {
    pc == HasBoth || pc == InModes || pc == PowerHeld || pc == PowerAfter
  }

  function EffectOf(th: Thread, flag0: bool, flag1: bool, m: Move): Option<Effect> {
    match m
    case Go => ThreadEffect(th, flag0, flag1, false)
    case Decline => if HasChoice(th.pc) then ThreadEffect(th, flag0, flag1, true) else None
    case AtOk => if th.pc.Sent? then Some(Silent(th.(pc := Accepted))) else None
    case AtBusy =>
      if th.pc.Sent? && th.entry == Armed && th.pc.retries < MAX_RETRIES
      then Some(Silent(th.(pc := Again(th.pc.retries + 1), entry := NoEntry))) else None
    case AtFail =>
      if th.pc.Sent? && th.entry == Armed then Some(Silent(th.(pc := Refused, entry := NoEntry))) else None
    case Take => if th.entry == Armed then Some(Silent(th.(entry := Taken))) else None
    case Handle => HandlerEffect(th)
    case LateFail =>
      if th.pc.Sent? && th.entry != NoEntry && th.entry != Armed then Some(Silent(th.(pc := Refused))) else None
  }

  function Changed(l: Lock, a: Act, t: Token): Lock {
    match a
    case Keep => l
    case Acquire => HeldBy(t)
    case Release => Free
  }

  predicate Possible(s: State, e: Effect) {
    && (e.power0 == Acquire ==> s.power0 == Free)
    && (e.power1 == Acquire ==> s.power1 == Free)
    && (e.modes == Acquire ==> s.modes == Free)
  }

  /** Carry out an effect; a thread that needs a lock waits until it is free, and
      unlocking frees the lock whoever holds it.  */
  function Do(s: State, t: Token, e: Effect): State
    requires t < |s.threads|
  {
    State(s.threads[t := e.th],
          Changed(s.power0, e.power0, t), Changed(s.power1, e.power1, t), Changed(s.modes, e.modes, t),
          if e.flags == Ask(0) then true else if e.flags == Clear(0) then false else s.flag0,
          if e.flags == Ask(1) then true else if e.flags == Clear(1) then false else s.flag1,
          if e.flags == Ask(0) && !s.flag0 then s.asks0 + 1 else s.asks0,
          if e.flags == Ask(1) && !s.flag1 then s.asks1 + 1 else s.asks1,
          if e.flags == Pass then s.passes + 1 else s.passes)
  }

  function Next(s: State, t: Token, m: Move): Option<State>
    requires t < |s.threads|
  {
    match EffectOf(s.threads[t], s.flag0, s.flag1, m)
    case None => None
    case Some(e) => if Possible(s, e) then Some(Do(s, t, e)) else None
  }

  // ----- what every interleaving keeps -----

  /** The power locks that go with a position; once the entry is registered, they
      go with the entry.  */
  datatype Hold = NoLock | FirstLock | SecondLock | BothLocks | WithEntry

  /** What a position means: which kinds of request can be there, which locks they
      hold, how often the token has been completed if no entry is registered,
      whether the power locks have been asked for, how many SIMs' flags of the APPLY
      barrier it has seen set, and how many steps are left.  */
  datatype Place = Place(fits: bool, hold: Hold, modes: bool, due: nat, asked0: bool, asked1: bool, saw: nat, rank: nat)

  function PlaceOf(kind: Kind, pc: Pc): Place {
    var power := kind.RadioPower?;
    var own := if kind == RadioPower(0) then FirstLock else SecondLock;
    var net := kind == NetType;
    match pc
    case Start => Place(true, NoLock, false, 0, false, false, 0, 40)
    case Flagged => Place(kind.Capability?, NoLock, false, 0, false, false, 0, 39)
    case SawFirst => Place(kind.Capability?, NoLock, false, 0, false, false, 1, 38)
    case SawBoth => Place(kind.Capability?, NoLock, false, 0, false, false, 2, 37)
    case ClearedFirst => Place(kind.Capability?, NoLock, false, 0, false, false, 2, 36)
    case WantFirst => Place(!power, NoLock, false, 0, false, false, 2, 35)
    case WantSecond => Place(!power, FirstLock, false, 0, true, false, 2, 34)
    case HasBoth => Place(!power, BothLocks, false, 0, true, true, 2, 33)
    case InModes => Place(!power, BothLocks, true, 0, true, true, 2, 32)
    case OutModes => Place(kind.Capability?, BothLocks, false, 0, true, true, 2, 31)
    case Sent(n) => Place(!power && n <= MAX_RETRIES, WithEntry, net, 0, true, true, 2, if n <= MAX_RETRIES then 26 - 2 * n else 20)
    case Again(n) => Place(!power && n <= MAX_RETRIES, BothLocks, net, 0, true, true, 2, if n <= MAX_RETRIES then 27 - 2 * n else 21)
    case Refused => Place(!power, BothLocks, net, 0, true, true, 2, 13)
    case Accepted => Place(!power, WithEntry, net, 0, true, true, 2, 13)
    case Answer => if net then Place(true, BothLocks, false, 0, true, true, 2, 12)
                   else Place(!power, NoLock, false, 0, true, true, 2, 9)
    case Unwind0 => Place(!power, BothLocks, false, if net then 1 else 0, true, true, 2, 11)
    case Unwind1 => Place(!power, SecondLock, false, if net then 1 else 0, true, true, 2, 10)
    case PowerHeld => Place(power, own, false, 0, true, true, 0, 8)
    case PowerModes => Place(power, own, true, 0, true, true, 0, 7)
    case PowerAfter => Place(power, own, false, 0, true, true, 0, 6)
    case PowerRepair => Place(power, own, true, 0, true, true, 0, 5)
    case PowerAnswered => Place(power, own, false, 1, true, true, 0, 4)
    case Finished => Place(true, WithEntry, false, 1, true, true, 0, 0)
  }

  predicate Has0(h: Hold, e: Entry) {
    h == FirstLock || h == BothLocks || (h == WithEntry && (e == Armed || e == Taken))
  }

  predicate Has1(h: Hold, e: Entry) {
    h == SecondLock || h == BothLocks || (h == WithEntry && (e == Armed || e == Taken || e == Freed0))
  }

  predicate Owns0(th: Thread) {
    Has0(PlaceOf(th.kind, th.pc).hold, th.entry)
  }

  predicate Owns1(th: Thread) {
    Has1(PlaceOf(th.kind, th.pc).hold, th.entry)
  }

  predicate OwnsModes(th: Thread) {
    PlaceOf(th.kind, th.pc).modes
  }

  ghost predicate ThreadOk(th: Thread) {
    var p := PlaceOf(th.kind, th.pc);
    && p.fits
    && (if th.entry == NoEntry then p.hold != WithEntry || th.pc == Finished
        else p.hold == WithEntry && !th.kind.RadioPower? && th.locked0 == 1 && th.locked1 == 1)
    && th.completions == (if th.entry == NoEntry then p.due else if th.entry == Completed then 1 else 0)
    && th.locked0 <= (if p.asked0 then 1 else 0)
    && th.locked1 <= (if p.asked1 then 1 else 0)
    && th.unlocked0 == th.locked0 - (if Has0(p.hold, th.entry) then 1 else 0)
    && th.unlocked1 == th.locked1 - (if Has1(p.hold, th.entry) then 1 else 0)
  }

  ghost predicate Inv(s: State) {
    && (forall t :: 0 <= t < |s.threads| ==> ThreadOk(s.threads[t]))
    && (forall t: Token :: s.power0 == HeldBy(t) <==> t < |s.threads| && Owns0(s.threads[t]))
    && (forall t: Token :: s.power1 == HeldBy(t) <==> t < |s.threads| && Owns1(s.threads[t]))
    && (forall t: Token :: s.modes == HeldBy(t) <==> t < |s.threads| && OwnsModes(s.threads[t]))
    && (s.flag0 ==> s.asks0 > 0) && (s.flag1 ==> s.asks1 > 0)
    && (forall t :: 0 <= t < |s.threads| ==> BarrierOk(s, s.threads[t]))
  }

  function Saw(th: Thread): nat {
    PlaceOf(th.kind, th.pc).saw
  }

  /** A capability request past the barrier has seen both SIMs ask. */
  ghost predicate BarrierOk(s: State, th: Thread) {
    th.kind.Capability? ==> (Saw(th) >= 1 ==> s.asks0 > 0) && (Saw(th) >= 2 ==> s.asks1 > 0)
  }

  function EntryRank(e: Entry): nat {
    match e
    case NoEntry => 4
    case Armed => 4
    case Taken => 3
    case Freed0 => 2
    case Freed1 => 1
    case Completed => 0
  }

  /** Steps that a thread and its entry can still take. */
  function Rank(th: Thread): nat {
    PlaceOf(th.kind, th.pc).rank + EntryRank(th.entry)
  }

  /** A lock action fits the change in who owns the lock. */
  predicate Fitting(a: Act, owned: bool, owns: bool) {
    match a
    case Keep => owned == owns
    case Acquire => !owned && owns
    case Release => owned && !owns
  }

  /** An effect that keeps its own thread's part of the invariant and brings the
      thread closer to its end.  */
  ghost predicate Sound(th: Thread, flag0: bool, flag1: bool, e: Effect) {
    && e.th.kind == th.kind && ThreadOk(e.th) && Rank(e.th) < Rank(th)
    && Fitting(e.power0, Owns0(th), Owns0(e.th))
    && Fitting(e.power1, Owns1(th), Owns1(e.th))
    && Fitting(e.modes, OwnsModes(th), OwnsModes(e.th))
    && (th.kind.Capability? && Saw(e.th) >= 1 ==> Saw(th) >= 1 || flag0)
    && (th.kind.Capability? && Saw(e.th) >= 2 ==> Saw(th) >= 2 || flag1)
  }

  ghost predicate MayStep(th: Thread, other: bool) {
    ThreadOk(th) && (other ==> HasChoice(th.pc))
  }

  ghost predicate StepsSoundly(th: Thread, flag0: bool, flag1: bool, other: bool) {
    var e := ThreadEffect(th, flag0, flag1, other);
    e.Some? && Sound(th, flag0, flag1, e.value)
  }

  lemma {:induction false} StartPowerSound(th: Thread, flag0: bool, flag1: bool, other: bool)
    requires MayStep(th, other)
    requires th.pc == Start && th.kind.RadioPower?
    ensures StepsSoundly(th, flag0, flag1, other)
  {
  }

  lemma {:induction false} StartOtherSound(th: Thread, flag0: bool, flag1: bool, other: bool)
    requires MayStep(th, other)
    requires th.pc == Start && !th.kind.RadioPower?
    ensures StepsSoundly(th, flag0, flag1, other)
  {
  }

  lemma {:induction false} BarrierSound(th: Thread, flag0: bool, flag1: bool, other: bool)
    requires MayStep(th, other)
    requires th.pc == Flagged || th.pc == SawFirst
    ensures StepsSoundly(th, flag0, flag1, other)
  {
  }

  lemma {:induction false} ClearSound(th: Thread, flag0: bool, flag1: bool, other: bool)
    requires MayStep(th, other)
    requires th.pc == SawBoth || th.pc == ClearedFirst
    ensures StepsSoundly(th, flag0, flag1, other)
  {
  }

  lemma {:induction false} LockingSound(th: Thread, flag0: bool, flag1: bool, other: bool)
    requires MayStep(th, other)
    requires th.pc == WantFirst || th.pc == WantSecond
    ensures StepsSoundly(th, flag0, flag1, other)
  {
  }

  lemma {:induction false} DecidingSound(th: Thread, flag0: bool, flag1: bool, other: bool)
    requires MayStep(th, other)
    requires th.pc == HasBoth
    ensures StepsSoundly(th, flag0, flag1, other)
  {
  }

  lemma {:induction false} InModesNetSound(th: Thread, flag0: bool, flag1: bool, other: bool)
    requires MayStep(th, other)
    requires th.pc == InModes && th.kind == NetType
    ensures StepsSoundly(th, flag0, flag1, other)
  {
  }

  lemma {:induction false} InModesCapabilitySound(th: Thread, flag0: bool, flag1: bool, other: bool)
    requires MayStep(th, other)
    requires th.pc == InModes && th.kind != NetType
    ensures StepsSoundly(th, flag0, flag1, other)
  {
  }

  lemma {:induction false} OutModesSound(th: Thread, flag0: bool, flag1: bool, other: bool)
    requires MayStep(th, other)
    requires th.pc == OutModes
    ensures StepsSoundly(th, flag0, flag1, other)
  {
  }

  lemma {:induction false} AgainSound(th: Thread, flag0: bool, flag1: bool, other: bool)
    requires MayStep(th, other)
    requires th.pc.Again?
    ensures StepsSoundly(th, flag0, flag1, other)
  {
  }

  lemma {:induction false} RefusedSound(th: Thread, flag0: bool, flag1: bool, other: bool)
    requires MayStep(th, other)
    requires th.pc == Refused
    ensures StepsSoundly(th, flag0, flag1, other)
  {
  }

  /** Giving the locks to the entry keeps a thread's part of the invariant. */
  lemma {:induction false} FinishedOk(th: Thread)
    requires ThreadOk(th) && th.pc == Accepted && th.kind == NetType
    ensures ThreadOk(th.(pc := Finished))
  {
    assert PlaceOf(th.kind, Accepted) == Place(true, WithEntry, true, 0, true, true, 2, 13);
    assert PlaceOf(th.kind, Finished) == Place(true, WithEntry, false, 1, true, true, 0, 0);
  }

  lemma {:induction false} FinishedOwns(th: Thread)
    requires th.pc == Accepted && th.kind == NetType
    ensures var after := th.(pc := Finished);
      && Owns0(after) == Owns0(th) && Owns1(after) == Owns1(th) && OwnsModes(th) && !OwnsModes(after)
      && Rank(after) < Rank(th)
  {
  }

  lemma {:induction false} AcceptedNetSound(th: Thread, flag0: bool, flag1: bool, other: bool)
    requires MayStep(th, other)
    requires th.pc == Accepted && th.kind == NetType
    ensures StepsSoundly(th, flag0, flag1, other)
  {
    FinishedOk(th);
    FinishedOwns(th);
    assert ThreadEffect(th, flag0, flag1, other) == Some(UnlockModes(th.(pc := Finished)));
  }

  lemma {:induction false} AcceptedCapabilitySound(th: Thread, flag0: bool, flag1: bool, other: bool)
    requires MayStep(th, other)
    requires th.pc == Accepted && th.kind != NetType
    ensures StepsSoundly(th, flag0, flag1, other)
  {
  }

  lemma {:induction false} AnswerSound(th: Thread, flag0: bool, flag1: bool, other: bool)
    requires MayStep(th, other)
    requires th.pc == Answer
    ensures StepsSoundly(th, flag0, flag1, other)
  {
  }

  lemma {:induction false} UnwindFirstSound(th: Thread, flag0: bool, flag1: bool, other: bool)
    requires MayStep(th, other)
    requires th.pc == Unwind0
    ensures StepsSoundly(th, flag0, flag1, other)
  {
  }

  lemma {:induction false} UnwindSecondSound(th: Thread, flag0: bool, flag1: bool, other: bool)
    requires MayStep(th, other)
    requires th.pc == Unwind1
    ensures StepsSoundly(th, flag0, flag1, other)
  {
  }

  lemma {:induction false} PowerHeldSound(th: Thread, flag0: bool, flag1: bool, other: bool)
    requires MayStep(th, other)
    requires th.pc == PowerHeld
    ensures StepsSoundly(th, flag0, flag1, other)
  {
  }

  lemma {:induction false} PowerModesSound(th: Thread, flag0: bool, flag1: bool, other: bool)
    requires MayStep(th, other)
    requires th.pc == PowerModes
    ensures StepsSoundly(th, flag0, flag1, other)
  {
  }

  lemma {:induction false} PowerAfterSound(th: Thread, flag0: bool, flag1: bool, other: bool)
    requires MayStep(th, other)
    requires th.pc == PowerAfter
    ensures StepsSoundly(th, flag0, flag1, other)
  {
  }

  lemma {:induction false} PowerRepairSound(th: Thread, flag0: bool, flag1: bool, other: bool)
    requires MayStep(th, other)
    requires th.pc == PowerRepair
    ensures StepsSoundly(th, flag0, flag1, other)
  {
  }

  lemma {:induction false} PowerAnsweredSound(th: Thread, flag0: bool, flag1: bool, other: bool)
    requires MayStep(th, other)
    requires th.pc == PowerAnswered
    ensures StepsSoundly(th, flag0, flag1, other)
  {
  }

  lemma {:induction false} ThreadEffectSound(th: Thread, flag0: bool, flag1: bool, other: bool)
    requires ThreadOk(th) && ThreadEffect(th, flag0, flag1, other).Some? && (other ==> HasChoice(th.pc))
    ensures Sound(th, flag0, flag1, ThreadEffect(th, flag0, flag1, other).value)
  {
    match th.pc
    case Start =>
      if th.kind.RadioPower? { StartPowerSound(th, flag0, flag1, other); }
      else { StartOtherSound(th, flag0, flag1, other); }
    case Flagged => BarrierSound(th, flag0, flag1, other);
    case SawFirst => BarrierSound(th, flag0, flag1, other);
    case SawBoth => ClearSound(th, flag0, flag1, other);
    case ClearedFirst => ClearSound(th, flag0, flag1, other);
    case WantFirst => LockingSound(th, flag0, flag1, other);
    case WantSecond => LockingSound(th, flag0, flag1, other);
    case HasBoth => DecidingSound(th, flag0, flag1, other);
    case InModes =>
      if th.kind == NetType { InModesNetSound(th, flag0, flag1, other); }
      else { InModesCapabilitySound(th, flag0, flag1, other); }
    case OutModes => OutModesSound(th, flag0, flag1, other);
    case Again(_) => AgainSound(th, flag0, flag1, other);
    case Refused => RefusedSound(th, flag0, flag1, other);
    case Accepted =>
      if th.kind == NetType { AcceptedNetSound(th, flag0, flag1, other); }
      else { AcceptedCapabilitySound(th, flag0, flag1, other); }
    case Answer => AnswerSound(th, flag0, flag1, other);
    case Unwind0 => UnwindFirstSound(th, flag0, flag1, other);
    case Unwind1 => UnwindSecondSound(th, flag0, flag1, other);
    case PowerHeld => PowerHeldSound(th, flag0, flag1, other);
    case PowerModes => PowerModesSound(th, flag0, flag1, other);
    case PowerAfter => PowerAfterSound(th, flag0, flag1, other);
    case PowerRepair => PowerRepairSound(th, flag0, flag1, other);
    case PowerAnswered => PowerAnsweredSound(th, flag0, flag1, other);
    case Sent(_) =>
    case Finished =>
  }

  lemma {:induction false} CommandAnswerSound(th: Thread, flag0: bool, flag1: bool, m: Move)
    requires ThreadOk(th) && (m == AtOk || m == AtBusy || m == AtFail) && EffectOf(th, flag0, flag1, m).Some?
    ensures Sound(th, flag0, flag1, EffectOf(th, flag0, flag1, m).value)
  {
  }

  lemma {:induction false} EntrySound(th: Thread, flag0: bool, flag1: bool, m: Move)
    requires ThreadOk(th) && (m == Take || m == Handle) && EffectOf(th, flag0, flag1, m).Some?
    ensures Sound(th, flag0, flag1, EffectOf(th, flag0, flag1, m).value)
  {
  }

  lemma {:induction false} EffectSound(th: Thread, flag0: bool, flag1: bool, m: Move)
    requires ThreadOk(th) && m != LateFail && EffectOf(th, flag0, flag1, m).Some?
    ensures Sound(th, flag0, flag1, EffectOf(th, flag0, flag1, m).value)
  {
    if m == Go || m == Decline {
      ThreadEffectSound(th, flag0, flag1, m == Decline);
    } else if m == Take || m == Handle {
      EntrySound(th, flag0, flag1, m);
    } else {
      CommandAnswerSound(th, flag0, flag1, m);
    }
  }

  lemma {:induction false} DoKeepsInv(s: State, t: Token, e: Effect)
    requires t < |s.threads| && Inv(s) && Possible(s, e)
    requires Sound(s.threads[t], s.flag0, s.flag1, e)
    ensures Inv(Do(s, t, e))
  {
    var r := Do(s, t, e);
    assert BarrierOk(s, s.threads[t]);
    forall u | 0 <= u < |r.threads| ensures ThreadOk(r.threads[u]) && BarrierOk(r, r.threads[u]) {
      if u != t { assert BarrierOk(s, s.threads[u]); }
    }
  }

  /** Every step of every thread and of every completion handler keeps the
      invariant, unless it is a rejection of an entry that has already been taken.  */
  lemma {:induction false} NextKeepsInv(s: State, t: Token, m: Move)
    requires t < |s.threads| && Inv(s) && m != LateFail && Next(s, t, m).Some?
    ensures Inv(Next(s, t, m).value)
  {
    var th := s.threads[t];
    EffectSound(th, s.flag0, s.flag1, m);
    DoKeepsInv(s, t, EffectOf(th, s.flag0, s.flag1, m).value);
  }

  lemma {:induction false} ArriveKeepsInv(s: State, kind: Kind)
    requires Inv(s)
    ensures Inv(Arrive(s, kind))
  {
    var r := Arrive(s, kind);
    assert forall t :: 0 <= t < |s.threads| ==> r.threads[t] == s.threads[t];
    assert ThreadOk(NewThread(kind)) && BarrierOk(r, NewThread(kind));
  }

  // ----- runs -----

  datatype Event = Arrival(kind: Kind) | Happens(t: Token, m: Move)

  function Apply(s: State, e: Event): Option<State> {
    match e
    case Arrival(kind) => Some(Arrive(s, kind))
    case Happens(t, m) => if t < |s.threads| then Next(s, t, m) else None
  }

  /** The state after a run, if every event was possible when it happened. */
  function Run(s: State, es: seq<Event>): Option<State>
    decreases |es|
  {
    if es == [] then Some(s)
    else match Apply(s, es[0])
      case None => None
      case Some(r) => Run(r, es[1..])
  }

  ghost predicate NoLateRejection(es: seq<Event>) {
    forall e <- es :: e.Happens? ==> e.m != LateFail
  }

  lemma {:induction false} RunKeepsInv(s: State, es: seq<Event>)
    requires Inv(s) && NoLateRejection(es) && Run(s, es).Some?
    ensures Inv(Run(s, es).value)
    decreases |es|
  {
    if es != [] {
      assert es[0] in es;
      match es[0] {
        case Arrival(kind) => ArriveKeepsInv(s, kind);
        case Happens(t, m) => NextKeepsInv(s, t, m);
      }
      RunKeepsInv(Apply(s, es[0]).value, es[1..]);
    }
  }

  /** Nothing more will happen to this thread or its entry. */
  predicate Settled(th: Thread) {
    th.pc == Finished && (th.entry == NoEntry || th.entry == Completed)
  }

  /** The transaction's entry is registered, or taken and its locks not yet released. */
  predicate Outstanding(th: Thread) {
    th.entry == Armed || th.entry == Taken
  }

  /** In every reachable state: no token has been completed twice and no power lock
      released more often than taken; a settled one has been completed exactly once
      with each lock it took released exactly once; at most one entry is registered
      or being handled over both SIMs; a lock has at most one owner; and a
      capability request that is past the barrier has seen both SIMs ask.  */
  lemma {:induction false} ExactlyOnce(es: seq<Event>, t: Token, u: Token)
    requires NoLateRejection(es) && Run(INITIAL, es).Some?
    requires t < |Run(INITIAL, es).value.threads| && u < |Run(INITIAL, es).value.threads|
    ensures var s := Run(INITIAL, es).value; var th := s.threads[t];
      && th.completions <= 1
      && th.unlocked0 <= th.locked0 <= 1 && th.unlocked1 <= th.locked1 <= 1
      && (Settled(th) ==> th.completions == 1 && th.unlocked0 == th.locked0 && th.unlocked1 == th.locked1)
      && (Outstanding(th) && Outstanding(s.threads[u]) ==> t == u)
      && (th.entry != NoEntry ==> th.locked0 == 1 && th.locked1 == 1)
      && (th.kind.Capability? && th.pc.Sent? ==> s.asks0 > 0 && s.asks1 > 0)
  {
    assert Inv(INITIAL);
    RunKeepsInv(INITIAL, es);
    var s := Run(INITIAL, es).value;
    assert ThreadOk(s.threads[t]) && ThreadOk(s.threads[u]) && BarrierOk(s, s.threads[t]);
    ThreadCounts(s.threads[t]);
    if Outstanding(s.threads[t]) && Outstanding(s.threads[u]) {
      assert Owns0(s.threads[t]) && Owns0(s.threads[u]);
    }
  }

  lemma {:induction false} ThreadCounts(th: Thread)
    requires ThreadOk(th)
    ensures th.completions <= 1
    ensures th.unlocked0 <= th.locked0 <= 1 && th.unlocked1 <= th.locked1 <= 1
    ensures Settled(th) ==> th.completions == 1 && th.unlocked0 == th.locked0 && th.unlocked1 == th.locked1
    ensures th.entry != NoEntry ==> th.locked0 == 1 && th.locked1 == 1
    ensures th.pc.Sent? ==> Saw(th) == 2
  {
  }

  /** A power lock is only ever released on behalf of the transaction that holds
      it, although another thread does it.  */
  lemma {:induction false} ReleasedByOwner(s: State, t: Token, m: Move)
    requires Inv(s) && t < |s.threads| && m != LateFail && Next(s, t, m).Some?
    ensures var r := Next(s, t, m).value;
      && (r.power0 != s.power0 && r.power0 == Free ==> s.power0 == HeldBy(t))
      && (r.power1 != s.power1 && r.power1 == Free ==> s.power1 == HeldBy(t))
      && (r.modes != s.modes && r.modes == Free ==> s.modes == HeldBy(t))
  {
    EffectSound(s.threads[t], s.flag0, s.flag1, m);
  }

  // ----- nobody waits for ever -----

  /** The move that carries a thread, or its entry, on. */
  function MoveOf(th: Thread): Move {
    if th.pc.Sent? then AtOk
    else if th.pc != Finished then Go
    else if th.entry == Armed then Take
    else Handle
  }

  predicate Blocked(s: State, th: Thread) {
    || (th.pc == Start && th.kind == RadioPower(0) && s.power0 != Free)
    || (th.pc == Start && th.kind == RadioPower(1) && s.power1 != Free)
    || (th.pc == WantFirst && s.power0 != Free)
    || (th.pc == WantSecond && s.power1 != Free)
    || (th.pc == HasBoth && s.modes != Free)
    || (th.pc == PowerHeld && s.modes != Free)
  }

  lemma {:induction false} UnblockedEntryMoves(s: State, t: Token)
    requires t < |s.threads| && ThreadOk(s.threads[t])
    requires !Settled(s.threads[t]) && (s.threads[t].pc.Sent? || s.threads[t].pc == Finished)
    ensures Next(s, t, MoveOf(s.threads[t])).Some?
  {
  }

  lemma {:induction false} UnblockedThreadMoves(s: State, t: Token)
    requires t < |s.threads| && ThreadOk(s.threads[t])
    requires !s.threads[t].pc.Sent? && s.threads[t].pc != Finished && !Blocked(s, s.threads[t])
    ensures Next(s, t, Go).Some?
  {
  }

  lemma {:induction false} UnblockedMoves(s: State, t: Token)
    requires t < |s.threads| && ThreadOk(s.threads[t])
    requires !Settled(s.threads[t]) && !Blocked(s, s.threads[t])
    ensures Next(s, t, MoveOf(s.threads[t])).Some?
  {
    if s.threads[t].pc.Sent? || s.threads[t].pc == Finished {
      UnblockedEntryMoves(s, t);
    } else {
      UnblockedThreadMoves(s, t);
    }
  }

  /** No interleaving deadlocks: as long as some request is not settled, some
      thread can take a step, or some registered entry can be completed.  */
  lemma {:induction false} NoDeadlock(s: State, t: Token) returns (u: Token)
    requires Inv(s) && t < |s.threads| && !Settled(s.threads[t])
    ensures u < |s.threads| && MoveOf(s.threads[u]) != LateFail
            && Next(s, u, MoveOf(s.threads[u])).Some?
  {
    u := if s.modes != Free then s.modes.t
         else if s.power1 != Free then s.power1.t
         else if s.power0 != Free then s.power0.t
         else t;
    Holder(s, u, t);
    UnblockedMoves(s, u);
  }

  lemma {:induction false} Holder(s: State, u: Token, t: Token)
    requires Inv(s) && t < |s.threads| && !Settled(s.threads[t])
    requires u == if s.modes != Free then s.modes.t
                  else if s.power1 != Free then s.power1.t
                  else if s.power0 != Free then s.power0.t
                  else t
    ensures u < |s.threads| && ThreadOk(s.threads[u]) && !Settled(s.threads[u]) && !Blocked(s, s.threads[u])
  {
    if s.modes != Free { assert s.modes == HeldBy(u); }
    else if s.power1 != Free { assert s.power1 == HeldBy(u); }
    else if s.power0 != Free { assert s.power0 == HeldBy(u); }
    assert ThreadOk(s.threads[u]);
  }

  function Total(ths: seq<Thread>): nat {
    if ths == [] then 0 else Rank(ths[0]) + Total(ths[1..])
  }

  lemma {:induction false} TotalUpdate(ths: seq<Thread>, t: nat, th: Thread)
    requires t < |ths|
    ensures Total(ths[t := th]) == Total(ths) - Rank(ths[t]) + Rank(th)
  {
    if t == 0 {
      assert ths[0 := th][1..] == ths[1..];
    } else {
      TotalUpdate(ths[1..], t - 1, th);
      assert ths[t := th][1..] == ths[1..][t - 1 := th];
    }
  }

  /** Without new requests every run is finite: no more steps than the ranks of the
      threads allow, whatever the modem and the scheduler do.  */
  lemma {:induction false} RunsAreFinite(s: State, es: seq<Event>)
    requires Inv(s) && NoLateRejection(es) && (forall e <- es :: e.Happens?) && Run(s, es).Some?
    ensures |es| <= Total(s.threads)
    decreases |es|
  {
    if es != [] {
      assert es[0] in es;
      var t, m := es[0].t, es[0].m;
      var r := Next(s, t, m).value;
      assert ThreadOk(s.threads[t]);
      EffectSound(s.threads[t], s.flag0, s.flag1, m);
      TotalUpdate(s.threads, t, r.threads[t]);
      NextKeepsInv(s, t, m);
      RunsAreFinite(r, es[1..]);
    }
  }

  /** When no step is possible any more, every token has been completed exactly
      once and all locks are free.  */
  lemma {:induction false} QuietMeansDone(s: State)
    requires Inv(s)
    requires forall t: Token, m: Move :: t < |s.threads| && m != LateFail ==> Next(s, t, m) == None
    ensures forall t :: 0 <= t < |s.threads| ==> Settled(s.threads[t]) && s.threads[t].completions == 1
    ensures s.power0 == Free && s.power1 == Free && s.modes == Free
  {
    forall t | 0 <= t < |s.threads| ensures Settled(s.threads[t]) && s.threads[t].completions == 1 {
      if !Settled(s.threads[t]) {
        var u := NoDeadlock(s, t);
      }
      assert ThreadOk(s.threads[t]);
    }
    assert forall t: Token :: t < |s.threads| ==>
      !Owns0(s.threads[t]) && !Owns1(s.threads[t]) && !OwnsModes(s.threads[t]);
    assert forall t: Token :: s.power0 != HeldBy(t) && s.power1 != HeldBy(t) && s.modes != HeldBy(t);
    NobodyHolds(s.power0);
    NobodyHolds(s.power1);
    NobodyHolds(s.modes);
  }

  lemma {:induction false} NobodyHolds(l: Lock)
    requires forall t: Token :: l != HeldBy(t)
    ensures l == Free
  {
    match l
    case Free =>
    case HeldBy(t) => assert false;
  }

  // ----- concrete runs -----

  ghost predicate Reaches(es: seq<Event>, s: State) {
    Run(INITIAL, es) == Some(s)
  }

  lemma {:induction false} RunAppend(s: State, es: seq<Event>, e: Event)
    requires Run(s, es).Some?
    ensures Run(s, es + [e]) == Apply(Run(s, es).value, e)
    decreases |es|
  {
    if es == [] {
      assert es + [e] == [e] && [e][1..] == [];
      assert Apply(s, e).Some? ==> Run(Apply(s, e).value, []) == Apply(s, e);
    } else {
      assert (es + [e])[1..] == es[1..] + [e];
      RunAppend(Apply(s, es[0]).value, es[1..], e);
    }
  }

  /** One more event of a concrete run. */
  lemma {:induction false} Then(es: seq<Event>, s: State, e: Event, r: State)
    requires Reaches(es, s) && Apply(s, e).Some?
    requires var x := Apply(s, e).value; x.threads == r.threads && x.(threads := []) == r.(threads := [])
    ensures Reaches(es + [e], r)
  {
    RunAppend(INITIAL, es, e);
  }
}
