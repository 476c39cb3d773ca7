/** Reassembly of the warning message that the modem reports segment by segment with
    +SPLWRN, in any order.  */
module WarningSegments {
  import opened Options

  const MAX_SEGMENTS := 10

  /** The id counts from 1; `data` is hexadecimal text. */
  datatype Segment = Segment(id: int, total: int, data: string)

  type Slots = seq<Option<string>>

  datatype State = State(pdus: Option<Slots>, count: nat, dataLen: nat)

  const INITIAL := State(None, 0, 0)

  function Blank(n: nat): Slots {
    seq(n, _ => None)
  }

  /** The slots in order, skipping those never filled. */
  function Text(slots: Slots): string {
    if slots == [] then "" else Text(slots[..|slots| - 1]) + slots[|slots| - 1].UnwrapOr("")
  }

  // ----- one report -----

  /** The slots the report works on: new ones when it comes first. */
  function Opened(s: State, m: Segment): Option<Slots> {
    if m.total < MAX_SEGMENTS && s.count == 0 then
      if m.total < 0 then None else Some(Blank(m.total))
    else s.pdus
  }

  /** The handler stays inside the slots it allocated. */
  predicate Safe(s: State, m: Segment) {
    Opened(s, m).Some? ==>
      && m.id >= 1
      && (m.id <= m.total ==> m.id <= |Opened(s, m).value|)
      && s.count + (if m.id <= m.total then 1 else 0) <= |Opened(s, m).value|
  }

  function Step(s: State, m: Segment): (State, Option<string>)
    requires Safe(s, m)
  {
    match Opened(s, m)
    case None => (s.(pdus := None), None)
    case Some(slots) =>
      var stored := m.id <= m.total;
      var slots := if stored then slots[m.id - 1 := Some(m.data)] else slots;
      var count := if stored then s.count + 1 else s.count;
      if count == m.total then (INITIAL, Some(Text(slots[..count])))
      else (State(Some(slots), count, if stored then s.dataLen + |m.data| else s.dataLen), None)
  }

  /** A report with a negative total that comes first is ignored. Any other one that finds
      slots is stored exactly if its id is at most its total, and hands the message on
      exactly if as many reports are stored then as it has segments.  */
  lemma {:induction false} ReportDecides(s: State, m: Segment)
    requires Safe(s, m)
    ensures m.total < 0 && s.count == 0 ==> Step(s, m) == (s.(pdus := None), None)
    ensures Opened(s, m).Some? ==>
      var (r, out) := Step(s, m);
      var stored := s.count + if m.id <= m.total then 1 else 0;
      && (out.Some? <==> stored == m.total)
      && (out.Some? ==> r == INITIAL)
      && (out.None? ==> r.count == stored && r.pdus.Some? && |r.pdus.value| == |Opened(s, m).value|)
  {
  }

  // ----- runs -----

  predicate RunSafe(s: State, ms: seq<Segment>)
    decreases |ms|
  {
    ms == [] || (Safe(s, ms[0]) && RunSafe(Step(s, ms[0]).0, ms[1..]))
  }

  /** The state after the reports, and the messages handed on. */
  function Run(s: State, ms: seq<Segment>): (State, seq<string>)
    requires RunSafe(s, ms)
    decreases |ms|
  {
    if ms == [] then (s, [])
    else
      var (s1, out) := Step(s, ms[0]);
      var (s2, outs) := Run(s1, ms[1..]);
      (s2, if out.Some? then [out.value] + outs else outs)
  }

  lemma {:induction false} RunAppend(s: State, a: seq<Segment>, b: seq<Segment>)
    requires RunSafe(s, a) && RunSafe(Run(s, a).0, b)
    ensures RunSafe(s, a + b)
    ensures Run(s, a + b) == (Run(Run(s, a).0, b).0, Run(s, a).1 + Run(Run(s, a).0, b).1)
    decreases |a|
  {
    if a == [] {
      assert a + b == b;
      assert [] + Run(s, b).1 == Run(s, b).1;
    } else {
      assert (a + b)[1..] == a[1..] + b;
      var s1, out := Step(s, a[0]).0, Step(s, a[0]).1;
      RunAppend(s1, a[1..], b);
      if out.Some? {
        var x, y := Run(s1, a[1..]).1, Run(Run(s, a).0, b).1;
        assert ([out.value] + x) + y == [out.value] + (x + y);
      }
    }
  }

  // ----- one message -----

  /** All reports of one message of `n` segments, as many as it has segments. */
  predicate Batch(ms: seq<Segment>, n: nat) {
    |ms| == n > 0 && forall k :: 0 <= k < n ==> Of(ms[k], n)
  }

  predicate Of(m: Segment, n: nat) {
    m.total == n && 1 <= m.id <= n
  }

  predicate EachOnce(ms: seq<Segment>) {
    forall j, k :: 0 <= j < k < |ms| ==> ms[j].id != ms[k].id
  }

  /** What the slots hold after the reports, each overwriting its slot. */
  function Filled(ms: seq<Segment>, n: nat): (slots: Slots)
    requires forall k :: 0 <= k < |ms| ==> Of(ms[k], n)
    ensures |slots| == n
  {
    if ms == [] then Blank(n)
    else
      assert Of(ms[|ms| - 1], n);
      Filled(ms[..|ms| - 1], n)[ms[|ms| - 1].id - 1 := Some(ms[|ms| - 1].data)]
  }

  function DataLen(ms: seq<Segment>): nat {
    if ms == [] then 0 else DataLen(ms[..|ms| - 1]) + |ms[|ms| - 1].data|
  }

  /** The state after the first reports of a message. */
  function Collected(ms: seq<Segment>, n: nat): State
    requires forall k :: 0 <= k < |ms| ==> Of(ms[k], n)
  {
    if ms == [] then INITIAL else State(Some(Filled(ms, n)), |ms|, DataLen(ms))
  }

  /** While a message is incomplete nothing is handed on. */
  lemma {:induction false} Collecting(ms: seq<Segment>, n: nat)
    requires |ms| < n < 10 && forall k :: 0 <= k < |ms| ==> Of(ms[k], n)
    ensures RunSafe(INITIAL, ms) && Run(INITIAL, ms) == (Collected(ms, n), [])
    decreases |ms|
  {
    if ms != [] {
      var init, last := ms[..|ms| - 1], ms[|ms| - 1];
      Collecting(init, n);
      assert Of(last, n);
      CollectOne(init, last, n);
      RunAppend(INITIAL, init, [last]);
      assert ms == init + [last];
    }
  }

  lemma {:induction false} CollectOne(init: seq<Segment>, last: Segment, n: nat)
    requires |init| + 1 < n < 10 && Of(last, n) && forall k :: 0 <= k < |init| ==> Of(init[k], n)
    ensures RunSafe(Collected(init, n), [last])
    ensures Run(Collected(init, n), [last]) == (Collected(init + [last], n), [])
  {
    NextReport(Collected(init, n), last, Filled(init, n));
    One(Collected(init, n), last);
    var ms := init + [last];
    assert ms[..|ms| - 1] == init && ms[|ms| - 1] == last;
    assert forall k :: 0 <= k < |ms| ==> Of(ms[k], n);
    assert Filled(ms, n) == Filled(init, n)[last.id - 1 := Some(last.data)];
    assert DataLen(ms) == DataLen(init) + |last.data|;
    assert init == [] ==> DataLen(init) == 0 && Filled(init, n) == Blank(n);
  }

  lemma {:induction false} NextReport(s: State, m: Segment, slots: Slots)
    requires |slots| == m.total < 10 && Of(m, m.total) && s.count < m.total - 1
    requires if s.count == 0 then slots == Blank(m.total) else s.pdus == Some(slots)
    ensures Safe(s, m)
    ensures Step(s, m) == (State(Some(slots[m.id - 1 := Some(m.data)]), s.count + 1, s.dataLen + |m.data|), None)
  {
    assert Opened(s, m) == Some(slots);
  }

  lemma {:induction false} One(s: State, m: Segment)
    requires Safe(s, m)
    ensures RunSafe(s, [m])
    ensures Run(s, [m]) == (Step(s, m).0, if Step(s, m).1.Some? then [Step(s, m).1.value] else [])
  {
    assert [m][1..] == [];
    assert Run(Step(s, m).0, []) == (Step(s, m).0, []);
    assert forall x: string :: [x] + [] == [x];
  }

  /** The last report of a message hands it on and leaves the initial state, in
      whatever order the reports came, repeated ids included.  */
  lemma {:induction false} BatchDelivers(ms: seq<Segment>, n: nat)
    requires Batch(ms, n) && n < 10
    ensures RunSafe(INITIAL, ms) && Run(INITIAL, ms) == (INITIAL, [Text(Filled(ms, n))])
  {
    var init, last := ms[..n - 1], ms[n - 1];
    Collecting(init, n);
    var before := Collected(init, n);
    assert Of(last, n);
    LastReport(before, last, Filled(init, n));
    One(before, last);
    RunAppend(INITIAL, init, [last]);
    assert ms == init + [last];
    var out: seq<string> := [Text(Filled(ms, n))];
    assert Run(before, [last]) == (INITIAL, out);
    assert [] + out == out;
  }

  lemma {:induction false} LastReport(s: State, m: Segment, slots: Slots)
    requires |slots| == m.total < 10 && Of(m, m.total) && s.count == m.total - 1
    requires if s.count == 0 then slots == Blank(m.total) else s.pdus == Some(slots)
    ensures Safe(s, m) && Step(s, m) == (INITIAL, Some(Text(slots[m.id - 1 := Some(m.data)])))
  {
    assert Opened(s, m) == Some(slots);
    var after := slots[m.id - 1 := Some(m.data)];
    assert after[..m.total] == after;
  }

  /** A message of ten segments or more is dropped without a trace. */
  lemma {:induction false} LongBatchDropped(ms: seq<Segment>, n: nat)
    requires n >= 10 && forall k :: 0 <= k < |ms| ==> Of(ms[k], n)
    ensures RunSafe(INITIAL, ms) && Run(INITIAL, ms) == (INITIAL, [])
  {
    if ms != [] {
      assert Of(ms[0], n);
      assert forall k :: 0 <= k < |ms| - 1 ==> ms[1..][k] == ms[k + 1];
      LongBatchDropped(ms[1..], n);
    }
  }

  // ----- which messages come out whole -----

  function NumFilled(slots: Slots): nat {
    if slots == [] then 0
    else NumFilled(slots[..|slots| - 1]) + if slots[|slots| - 1].Some? then 1 else 0
  }

  lemma {:induction false} FillOne(slots: Slots, i: nat, data: string)
    requires i < |slots|
    ensures NumFilled(slots[i := Some(data)]) == NumFilled(slots) + if slots[i].Some? then 0 else 1
    decreases |slots|
  {
    var n := |slots| - 1;
    var after := slots[i := Some(data)];
    if i == n {
      assert after[..n] == slots[..n];
    } else {
      FillOne(slots[..n], i, data);
      assert after[..n] == slots[..n][i := Some(data)];
    }
  }

  lemma {:induction false} FilledBound(slots: Slots)
    ensures NumFilled(slots) <= |slots|
    ensures NumFilled(slots) == |slots| <==> forall i :: 0 <= i < |slots| ==> slots[i].Some?
  {
    if slots != [] {
      FilledBound(slots[..|slots| - 1]);
    }
  }

  lemma {:induction false} BlankIsEmpty(n: nat)
    ensures NumFilled(Blank(n)) == 0
  {
    if n > 0 {
      BlankIsEmpty(n - 1);
      assert Blank(n)[..n - 1] == Blank(n - 1);
    }
  }

  /** A slot is filled exactly if its segment has come. */
  lemma {:induction false} FilledSlot(ms: seq<Segment>, n: nat, i: nat)
    requires i < n && forall k :: 0 <= k < |ms| ==> Of(ms[k], n)
    ensures Filled(ms, n)[i].Some? <==> exists k :: 0 <= k < |ms| && ms[k].id == i + 1
  {
    if ms != [] {
      FilledSlot(ms[..|ms| - 1], n, i);
      if ms[|ms| - 1].id != i + 1 {
        if k :| 0 <= k < |ms| && ms[k].id == i + 1 {
          assert ms[..|ms| - 1][k] == ms[k];
        }
      }
    }
  }

  lemma {:induction false} CountFilled(ms: seq<Segment>, n: nat)
    requires forall k :: 0 <= k < |ms| ==> Of(ms[k], n)
    ensures NumFilled(Filled(ms, n)) <= |ms|
    ensures NumFilled(Filled(ms, n)) == |ms| <==> EachOnce(ms)
  {
    if ms == [] {
      BlankIsEmpty(n);
    } else {
      var init, last := ms[..|ms| - 1], ms[|ms| - 1];
      CountFilled(init, n);
      assert Of(last, n);
      FillOne(Filled(init, n), last.id - 1, last.data);
      FilledSlot(init, n, last.id - 1);
      if EachOnce(ms) {
        assert EachOnce(init);
        assert forall k :: 0 <= k < |init| ==> init[k].id != last.id;
      }
    }
  }

  /** The handed-on message misses no segment exactly if each came once. */
  lemma {:induction false} WholeIffEachOnce(ms: seq<Segment>, n: nat)
    requires Batch(ms, n)
    ensures (forall i :: 0 <= i < n ==> Filled(ms, n)[i].Some?) <==> EachOnce(ms)
  {
    CountFilled(ms, n);
    FilledBound(Filled(ms, n));
  }

  /** The segments' data joined in order. */
  function Joined(data: seq<string>): string {
    if data == [] then "" else Joined(data[..|data| - 1]) + data[|data| - 1]
  }

  predicate Carries(ms: seq<Segment>, data: seq<string>) {
    forall k :: 0 <= k < |ms| ==> Of(ms[k], |data|) && ms[k].data == data[ms[k].id - 1]
  }

  lemma {:induction false} FilledWith(ms: seq<Segment>, data: seq<string>)
    requires Carries(ms, data)
    ensures forall i :: 0 <= i < |data| && Filled(ms, |data|)[i].Some? ==> Filled(ms, |data|)[i].value == data[i]
  {
    if ms != [] {
      FilledWith(ms[..|ms| - 1], data);
    }
  }

  lemma {:induction false} TextOfAll(slots: Slots, data: seq<string>)
    requires |slots| == |data| && forall i :: 0 <= i < |data| ==> slots[i] == Some(data[i])
    ensures Text(slots) == Joined(data)
  {
    if slots != [] {
      TextOfAll(slots[..|slots| - 1], data[..|data| - 1]);
    }
  }

  /** Every arrival order of the segments of one message that fits hands on exactly
      data 1 + ... + data N and comes back to the initial state.  */
  lemma {:induction false} AnyOrderDelivers(ms: seq<Segment>, data: seq<string>)
    requires 0 < |data| == |ms| < 10 && Carries(ms, data) && EachOnce(ms)
    ensures RunSafe(INITIAL, ms) && Run(INITIAL, ms) == (INITIAL, [Joined(data)])
  {
    BatchDelivers(ms, |data|);
    WholeIffEachOnce(ms, |data|);
    FilledWith(ms, data);
    TextOfAll(Filled(ms, |data|), data);
  }

  // ----- sequences of messages -----

  datatype Message = Message(reports: seq<Segment>, data: seq<string>)

  predicate Arrived(m: Message) {
    0 < |m.data| == |m.reports| && Carries(m.reports, m.data) && EachOnce(m.reports)
  }

  function Reports(messages: seq<Message>): seq<Segment> {
    if messages == [] then [] else messages[0].reports + Reports(messages[1..])
  }

  /** The messages of fewer than ten segments. */
  function Handed(messages: seq<Message>): seq<string> {
    if messages == [] then []
    else (if |messages[0].data| < 10 then [Joined(messages[0].data)] else []) + Handed(messages[1..])
  }

  /** For every sequence of messages, each in any order and none mixed with another,
      exactly those of fewer than ten segments are handed on, whole and in turn.  */
  lemma {:induction false} EveryMessage(messages: seq<Message>)
    requires forall i :: 0 <= i < |messages| ==> Arrived(messages[i])
    ensures RunSafe(INITIAL, Reports(messages))
    ensures Run(INITIAL, Reports(messages)) == (INITIAL, Handed(messages))
  {
    if messages != [] {
      var m := messages[0];
      assert Arrived(m);
      if |m.data| < 10 {
        AnyOrderDelivers(m.reports, m.data);
      } else {
        LongBatchDropped(m.reports, |m.data|);
      }
      EveryMessage(messages[1..]);
      RunAppend(INITIAL, m.reports, Reports(messages[1..]));
    }
  }

  // ----- the message buffer -----

  /** The text of the slots fits in the bytes counted so far. */
  predicate Fits(s: State) {
    s.pdus.Some? ==> |Text(s.pdus.value)| <= s.dataLen
  }

  lemma {:induction false} TextLength(slots: Slots, i: nat, data: string)
    requires i < |slots|
    ensures |Text(slots[i := Some(data)])| <= |Text(slots)| + |data|
    decreases |slots|
  {
    var n := |slots| - 1;
    if i == n {
      assert slots[i := Some(data)][..n] == slots[..n];
    } else {
      TextLength(slots[..n], i, data);
      assert slots[i := Some(data)][..n] == slots[..n][i := Some(data)];
    }
  }

  lemma {:induction false} PrefixLength(slots: Slots, n: nat)
    requires n <= |slots|
    ensures |Text(slots[..n])| <= |Text(slots)|
    decreases |slots|
  {
    if n < |slots| {
      PrefixLength(slots[..|slots| - 1], n);
      assert slots[..|slots| - 1][..n] == slots[..n];
    } else {
      assert slots[..n] == slots;
    }
  }

  lemma {:induction false} BlankText(n: nat)
    ensures Text(Blank(n)) == ""
  {
    if n > 0 {
      BlankText(n - 1);
      assert Blank(n)[..n - 1] == Blank(n - 1);
    }
  }

  /** The length counted when a report has been stored. */
  function Counted(s: State, m: Segment): nat {
    s.dataLen + if m.id <= m.total then |m.data| else 0
  }

  /** One report: the joined text fits in the buffer sized by the counted length,
      repeated segments included.  */
  lemma {:induction false} StepFits(s: State, m: Segment)
    requires Fits(s) && Safe(s, m)
    ensures Fits(Step(s, m).0)
    ensures Step(s, m).1.Some? ==> |Step(s, m).1.value| <= Counted(s, m)
  {
    if Opened(s, m).Some? {
      var slots := Opened(s, m).value;
      if s.pdus != Some(slots) { BlankText(|slots|); }
      if m.id <= m.total {
        TextLength(slots, m.id - 1, m.data);
        PrefixLength(slots[m.id - 1 := Some(m.data)], s.count + 1);
      } else {
        PrefixLength(slots, s.count);
      }
    }
  }

  /** Whatever is handed on during the run fits in its buffer. */
  ghost predicate EveryTextFits(s: State, ms: seq<Segment>)
    requires RunSafe(s, ms)
    decreases |ms|
  {
    ms != [] ==>
      && (Step(s, ms[0]).1.Some? ==> |Step(s, ms[0]).1.value| <= Counted(s, ms[0]))
      && EveryTextFits(Step(s, ms[0]).0, ms[1..])
  }

  lemma {:induction false} RunFitsFrom(s: State, ms: seq<Segment>)
    requires Fits(s) && RunSafe(s, ms)
    ensures EveryTextFits(s, ms) && Fits(Run(s, ms).0)
    decreases |ms|
  {
    if ms != [] {
      StepFits(s, ms[0]);
      RunFitsFrom(Step(s, ms[0]).0, ms[1..]);
    }
  }

  /** In every run from the initial state that stays inside the allocated slots, no
      text is longer than its buffer.  */
  lemma {:induction false} RunFits(ms: seq<Segment>)
    requires RunSafe(INITIAL, ms)
    ensures EveryTextFits(INITIAL, ms)
  {
    RunFitsFrom(INITIAL, ms);
  }

  // ----- the handler -----

  method ConcatPages(pdus: array<Option<string>>, count: nat) returns (msg: string)
    requires count <= pdus.Length
    ensures msg == Text(pdus[..count])
  {
    msg := "";
    for index := 0 to count
      invariant msg == Text(pdus[..index])
    {
      assert pdus[..index + 1][..index] == pdus[..index];
      if pdus[index].Some? {
        msg := msg + pdus[index].value;
      }
    }
  }

  /** The handler's static variables. */
  class Reassembly {
    var pdus: array?<Option<string>>
    var count: nat
    var dataLen: nat

    function View(): State
      reads this, pdus
    {
      State(if pdus == null then None else Some(pdus[..]), count, dataLen)
    }

    constructor ()
      ensures View() == INITIAL
    {
      pdus, count, dataLen := null, 0, 0;
    }

    method Handle(segmentId: int, totalSegments: int, data: string) returns (delivered: Option<string>)
      requires Safe(View(), Segment(segmentId, totalSegments, data))
      modifies this, pdus
      ensures pdus == old(pdus) || pdus == null || fresh(pdus)
      ensures (View(), delivered) == Step(old(View()), Segment(segmentId, totalSegments, data))
    {
      delivered := None;
      if totalSegments < 10 && count == 0 {
        if totalSegments < 0 {
          pdus := null;
        } else {
          pdus := new Option<string>[totalSegments](_ => None);
          assert pdus[..] == Blank(totalSegments);
        }
      }
      if pdus == null {
        return;
      }
      ghost var slots := pdus[..];
      assert Some(slots) == Opened(old(View()), Segment(segmentId, totalSegments, data));
      if segmentId <= totalSegments {
        pdus[segmentId - 1] := Some(data);
        count := count + 1;
        dataLen := dataLen + |data|;
        assert pdus[..] == slots[segmentId - 1 := Some(data)];
      }
      if count == totalSegments {
        var msg := ConcatPages(pdus, count);
        assert pdus[..][..count] == pdus[..count];
        delivered := Some(msg);
        pdus, dataLen, count := null, 0, 0;
      }
    }
  }
}
