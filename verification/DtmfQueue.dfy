/** The queue of DTMF tones being played on one SIM. */
module DtmfQueue {
  import opened CircularList

  datatype AtReply = AtOk | CmeError22 | AtError

  datatype Result = Done | InvalidModemState | GenericFailure

  /** `started` and `stopped` record the tones since the queue was last emptied. */
  datatype Tones = Tones(queue: string, started: string, stopped: string, calls: int)

  datatype Event =
    | ToneStart(tone: char, sdtmf: AtReply, evts: AtReply)
    | ToneStop(sdtmf: AtReply, evts: AtReply)
    | CallsListed(calls: int)
    | ModemReset

  function ResultOf(sdtmf: AtReply, evts: AtReply): Result {
    if sdtmf == AtOk && evts == AtOk then Done
    else if sdtmf == CmeError22 || (sdtmf == AtOk && evts == CmeError22) then InvalidModemState
    else GenericFailure
  }

  function Emptied(s: Tones): Tones {
    s.(queue := "", started := "", stopped := "")
  }

  function Step(s: Tones, e: Event): Tones {
    match e
    case ToneStart(tone, _, _) => s.(queue := s.queue + [tone], started := s.started + [tone])
    case ToneStop(_, _) =>
      if s.queue == "" then s
      else s.(queue := s.queue[1..], stopped := s.stopped + [s.queue[0]])
    case CallsListed(calls) =>
      (if s.calls == 0 && calls != 0 then Emptied(s) else s).(calls := calls)
    case ModemReset => Emptied(s).(calls := 0)
  }

  function Run(s: Tones, es: seq<Event>): Tones
    decreases |es|
  {
    if es == [] then s else Run(Step(s, es[0]), es[1..])
  }

  /** Tones leave in the order in which they were started, none is lost and none
      is stopped twice.  */
  ghost predicate Fifo(s: Tones) {
    s.started == s.stopped + s.queue
  }

  /** Whatever the modem answers, the tones stopped since the queue was last
      emptied are a prefix of those started, and the rest is still queued.  */
  lemma {:induction false} StoppedIsPrefix(s: Tones, es: seq<Event>)
    requires Fifo(s)
    ensures Fifo(Run(s, es)) && Run(s, es).stopped <= Run(s, es).started
    decreases |es|
  {
    if es != [] {
      var r := Step(s, es[0]);
      assert Fifo(r) by {
        if es[0].ToneStop? && s.queue != "" { assert s.queue == [s.queue[0]] + s.queue[1..]; }
      }
      StoppedIsPrefix(r, es[1..]);
    }
  }

  function Starts(tones: string, sdtmf: AtReply, evts: AtReply): seq<Event> {
    seq(|tones|, i requires 0 <= i < |tones| => ToneStart(tones[i], sdtmf, evts))
  }

  /** Every tone started is queued, also one that the modem refuses. */
  lemma {:induction false} StartsQueue(s: Tones, tones: string, sdtmf: AtReply, evts: AtReply)
    ensures Run(s, Starts(tones, sdtmf, evts))
         == Tones(s.queue + tones, s.started + tones, s.stopped, s.calls)
    decreases |tones|
  {
    if tones == "" {
      assert s.queue + tones == s.queue && s.started + tones == s.started;
    } else {
      var r := Step(s, ToneStart(tones[0], sdtmf, evts));
      assert Starts(tones, sdtmf, evts)[1..] == Starts(tones[1..], sdtmf, evts);
      StartsQueue(r, tones[1..], sdtmf, evts);
      assert r.queue + tones[1..] == s.queue + tones && r.started + tones[1..] == s.started + tones;
    }
  }

  /** Every stop takes exactly the oldest tone out, whatever the modem answers, and
      none if there is none.  */
  lemma {:induction false} StopsTakeOldest(s: Tones, es: seq<Event>)
    requires forall e <- es :: e.ToneStop?
    ensures var n := if |es| < |s.queue| then |es| else |s.queue|;
      Run(s, es) == Tones(s.queue[n..], s.started, s.stopped + s.queue[..n], s.calls)
    decreases |es|
  {
    if es == [] || s.queue == "" {
      StopsOfNone(s, es);
    } else {
      assert es[0] in es;
      var n := if |es| < |s.queue| then |es| else |s.queue|;
      StopsTakeOldest(Step(s, es[0]), es[1..]);
      assert s.queue[1..][n - 1..] == s.queue[n..];
      assert s.stopped + [s.queue[0]] + s.queue[1..][..n - 1] == s.stopped + s.queue[..n];
    }
  }

  lemma {:induction false} StopsOfNone(s: Tones, es: seq<Event>)
    requires (forall e <- es :: e.ToneStop?) && (es == [] || s.queue == "")
    ensures Run(s, es) == s && s.stopped + s.queue[..0] == s.stopped && s.queue[0..] == s.queue
    decreases |es|
  {
    if es != [] {
      assert es[0] in es;
      StopsOfNone(s, es[1..]);
    }
  }

  /** The second command is sent only if the first succeeds; error 22 of the one that
      failed means an invalid modem state, any other failure is generic.  */
  lemma {:induction false} AnswerMeans(sdtmf: AtReply, evts: AtReply)
    ensures ResultOf(sdtmf, evts) == Done <==> sdtmf == AtOk && evts == AtOk
    ensures sdtmf == AtOk && evts == CmeError22 ==> ResultOf(sdtmf, evts) == InvalidModemState
    ensures sdtmf == CmeError22 ==> ResultOf(sdtmf, evts) == InvalidModemState
    ensures sdtmf == AtError || (sdtmf == AtOk && evts == AtError) ==> ResultOf(sdtmf, evts) == GenericFailure
  {
  }

  /** The queue is emptied exactly when the first call begins and on a modem reset; the
      end of a call leaves it.  */
  lemma {:induction false} CallsEmpty(s: Tones, calls: int)
    ensures Step(s, CallsListed(calls))
         == if s.calls == 0 && calls != 0 then Tones("", "", "", calls) else Tones(s.queue, s.started, s.stopped, calls)
    ensures Step(s, ModemReset) == Tones("", "", "", 0)
  {
  }

  class Player {
    const list: List<char>
    ghost var started: string
    ghost var stopped: string
    var callCount: int

    ghost predicate Valid()
      reads this, list, list.head, list.items
    {
      list.Valid()
    }

    ghost function View(): Tones
      reads this, list, list.items
    {
      Tones(list.Contents(), started, stopped, callCount)
    }

    constructor ()
      ensures Valid() && fresh(list) && fresh(list.head) && View() == Tones("", "", "", 0) && Fifo(View())
    {
      list := new List<char>('\0');
      started := "";
      stopped := "";
      callCount := 0;
    }

    /** init_dtmf_list */
    method InitDtmfList()
      requires Valid()
      modifies this, list, list.head, list.items
      ensures Valid() && View() == Emptied(old(View())) && list.items == []
    {
      list.Clear();
      started, stopped := "", "";
    }

    /** The tone is queued before the modem is asked and stays queued if it refuses. */
    method RequestDtmfStart(tone: char, sdtmf: AtReply, evts: AtReply) returns (r: Result)
      requires Valid()
      modifies this, list, list.head, list.items
      ensures Valid() && View() == Step(old(View()), ToneStart(tone, sdtmf, evts))
      ensures r == ResultOf(sdtmf, evts)
    {
      var item := new Node<char>(tone);
      list.AddTail(item);
      started := started + [tone];
      r := Answer(sdtmf, evts);
    }

    method Answer(sdtmf: AtReply, evts: AtReply) returns (r: Result)
      ensures r == ResultOf(sdtmf, evts)
    {
      var last := if sdtmf == AtOk then evts else sdtmf;
      r := match last case AtOk => Done case CmeError22 => InvalidModemState case AtError => GenericFailure;
    }

    method RequestDtmfStop(sdtmf: AtReply, evts: AtReply) returns (r: Result)
      requires Valid()
      modifies this, list, list.head, list.items
      ensures Valid() && View() == Step(old(View()), ToneStop(sdtmf, evts))
      ensures r == if old(View()).queue == "" then GenericFailure else ResultOf(sdtmf, evts)
    {
      list.Neighbours(0);
      var item := list.head.next;
      if item != list.head {
        r := Answer(sdtmf, evts);
        RemoveOldest(item);
      } else {
        r := GenericFailure;
      }
    }

    method RemoveOldest(item: Node<char>)
      requires Valid() && list.items != [] && item == list.items[0]
      modifies this, list, list.head, list.items
      ensures Valid()
      ensures var s := old(View()); View() == s.(queue := s.queue[1..], stopped := s.stopped + [s.queue[0]])
    {
      stopped := stopped + [item.data];
      ghost var was := list.Contents();
      list.Remove(item, 0);
      assert was[..0] + was[1..] == was[1..];
    }

    method ProcessCalls(calls: int)
      requires Valid()
      modifies this, list, list.head, list.items
      ensures Valid() && View() == Step(old(View()), CallsListed(calls))
    {
      if callCount == 0 && calls != 0 {
        InitDtmfList();
      }
      callCount := calls;
    }

    method OnModemResetCall()
      requires Valid()
      modifies this, list, list.head, list.items
      ensures Valid() && View() == Step(old(View()), ModemReset)
    {
      callCount := 0;
      InitDtmfList();
    }
  }
}
