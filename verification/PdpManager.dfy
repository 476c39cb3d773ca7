/** The slot arrays of one SIM and the requests that update them in place. Every
    method is proved to compute the function of the same name on values.  */
module PdpManager {
  import opened Sims
  import opened PdpTable
  import opened PdpSetup
  import opened PdpOutcome
  import opened PdpHolders
  import opened PdpRuns

  /** How one pass ended, without the table it left. */
  datatype Verdict =
    | GoAgain(retries: nat, delays: nat)
    | GaveUp(index: int)
    | CameUp(index: int, byFallback: bool)

  ghost function PassOf(v: Verdict, t: Table): Pass {
    match v
    case GoAgain(retries, delays) => Again(t, retries, delays)
    case GaveUp(index) => GiveUp(t, index)
    case CameUp(index, byFallback) => Done(t, index, byFallback)
  }

  /** The loop, from here on, ends in `whole`. */
  ghost predicate HeadsFor(whole: Outcome, t: Table, q: Request, replies: nat -> Reply, k: nat, retries: nat, delays: nat) {
    && retries <= MAX_RETRIES && delays <= MAX_DELAYED_RETRIES
    && SetupFrom(t, q, replies, k, retries, delays) == whole
  }

  /** One pass of the retry loop, in terms of its verdict. */
  lemma {:induction false} Unroll(whole: Outcome, t: Table, q: Request, replies: nat -> Reply,
                                  k: nat, retries: nat, delays: nat, v: Verdict, t1: Table)
    requires HeadsFor(whole, t, q, replies, k, retries, delays)
    requires Attempt(t, q, replies(k), retries, delays) == PassOf(v, t1)
    ensures v.GoAgain? ==>
      && HeadsFor(whole, t1, q, replies, k + 1, v.retries, v.delays)
      && Measure(t1, v.retries, v.delays) < Measure(t, retries, delays)
    ensures v.GaveUp? ==>
      && (v.index == -1 || Index(v.index))
      && whole == Outcome(Abandon(t1, v.index), Failed, if v.index < 0 then k else k + 1)
    ensures v.CameUp? ==>
      && Index(v.index)
      && whole == Outcome(Hold(PutUnusable(t1), v.index), if v.byFallback then UpByFallback(v.index) else Up(v.index), k + 1)
  {
    AttemptDecreases(t, q, replies(k), retries, delays);
  }

  /** First context of the modem whose APN and protocol match, or -1. */
  method GetApnMatchedCidIndex(pdn: PdnInfo) returns (ret: int)
    ensures ret == Matched(pdn)
  {
    if pdn.active > 0 {
      for i := 0 to MAX_PDP
        invariant Matched(pdn) == Matched(pdn, i)
      {
        if pdn.nCid[i] == i + 1 && pdn.apnMatches[i] {
          return i;
        }
      }
    }
    ret := -1;
  }

  class Manager {
    const slots: array<Pdp>
    const holders: array<int>

    ghost predicate Sized() {
      slots.Length == MAX_PDP && holders.Length == MAX_PDP
    }

    /** Between requests the pairing is always in order. */
    ghost predicate Valid()
      reads slots, holders
    {
      Sized() && Paired(View())
    }

    ghost function View(): Table
      requires Sized()
      reads slots, holders
    {
      Table(slots[..], holders[..])
    }

    constructor ()
      ensures Valid() && fresh(slots) && fresh(holders)
      ensures AtRest(View()) && BusySet(View()) == {}
    {
      slots := new Pdp[MAX_PDP](_ => FREE);
      holders := new int[MAX_PDP](_ => 0);
      new;
      forall i | 0 <= i < MAX_PDP ensures PairedAt(View(), i) { }
    }

    method GetPdp(pdn: PdnInfo) returns (ret: int)
      requires Sized()
      modifies slots
      ensures (View(), ret) == Get(pdn, old(View()))
    {
      for i := 0 to MAX_PDP
        invariant slots[..] == old(slots[..])
        invariant FirstFree(pdn, View()) == FirstFree(pdn, View(), i)
      {
        if pdn.applies && pdn.active > 0 && pdn.nCid[i] == i + 1 {
          continue;
        }
        if slots[i].state == Idle && slots[i].cid == -1 {
          slots[i] := slots[i].(state := Busy);
          return i;
        }
      }
      ret := -1;
    }

    method GetPdpByIndex(index: int) returns (ret: int)
      requires Sized()
      modifies slots
      ensures (View(), ret) == GetByIndex(old(View()), index)
    {
      if 0 <= index < MAX_PDP && slots[index].state == Idle && slots[index].cid != UNUSABLE_CID {
        slots[index] := slots[index].(state := Busy);
        return index;
      }
      ret := -1;
    }

    method PutPdp(index: int)
      requires Sized()
      modifies slots, holders
      ensures View() == Put(old(View()), index)
    {
      if index < 0 || index >= MAX_PDP {
        return;
      }
      if slots[index].state == Busy {
        slots[index] := slots[index].(state := Idle);
      }
      var other := slots[index].secondary;
      if other > 0 && other <= MAX_PDP {
        slots[other - 1] := slots[other - 1].(secondary := -1);
      }
      slots[index] := slots[index].(secondary := -1, cid := -1, isPrimary := false);
      holders[index] := 0;
      assert slots[..] == Put(old(View()), index).slots;
    }

    method PutUnusablePdpCid()
      requires Sized()
      modifies slots
      ensures View() == PutUnusable(old(View()))
    {
      for i := 0 to MAX_PDP
        invariant forall k :: 0 <= k < i ==> slots[k] == Usable(old(slots[k]))
        invariant forall k :: i <= k < MAX_PDP ==> slots[k] == old(slots[k])
      {
        if slots[i].cid == UNUSABLE_CID {
          slots[i] := slots[i].(cid := -1);
        }
      }
      assert slots[..] == PutUnusable(old(View())).slots;
    }

    method UpdatePdpCid(cid: int, state: int)
      requires Sized()
      modifies slots
      ensures View() == UpdateCid(old(View()), cid, state)
    {
      if cid <= 0 || cid > MAX_PDP {
        return;
      }
      var index := cid - 1;
      if state == 1 {
        slots[index] := slots[index].(cid := cid);
      } else if state == 0 {
        slots[index] := slots[index].(cid := -1);
      } else if state == -1 && slots[index].cid == -1 {
        slots[index] := slots[index].(cid := UNUSABLE_CID);
      }
    }

    method SetPdpMapping(primary: int, secondary: int)
      requires Sized()
      modifies slots
      ensures View() == Pair(old(View()), primary, secondary)
    {
      if primary < 0 || primary >= MAX_PDP || secondary < 0 || secondary >= MAX_PDP {
        return;
      }
      slots[primary] := Pdp(primary + 1, secondary + 1, true, slots[primary].state);
      slots[secondary] := Pdp(secondary + 1, primary + 1, false, slots[secondary].state);
    }

    method IsExistActivePdp() returns (r: bool)
      requires Sized()
      ensures r == AnyBusy(View())
    {
      for i := 0 to MAX_PDP
        invariant forall k :: 0 <= k < i ==> slots[k].state == Idle
      {
        if slots[i].state == Busy {
          assert View().slots[i].state == Busy;
          return true;
        }
      }
      r := false;
    }

    method ActivateSpecifiedCid(cid: int, primaryCid: int, a: ActivationReply) returns (code: Activation)
      requires Sized() && 1 <= cid <= MAX_PDP
      modifies slots, holders
      ensures (View(), code) == Activate(old(View()), cid - 1, primaryCid, a)
    {
      if a.contextRejected {
        PutPdp(cid - 1);
        return ActivationFailed;
      }
      code := ErrorHandling(a.data);
      if code != Success {
        PutPdp(cid - 1);
        return;
      }
      if primaryCid > 0 {
        if !a.dualStack {
          PutPdp(cid - 1);
          code := FallbackFailed;
        } else {
          SetPdpMapping(primaryCid - 1, cid - 1);
        }
      } else {
        UpdatePdpCid(cid, 1);
      }
    }

    method CheckFallBackFor(pdpType: PdpType, index: int, r: Reply)
      requires Sized() && Index(index)
      modifies slots, holders
      ensures View() == CheckFallBack(old(View()), pdpType, index, r)
    {
      var isFallback := pdpType == IPV4V6;
      if pdpType != IPV4_AND_IPV6 && !(isFallback && r.wantsOtherIp) {
        return;
      }
      var second := GetPdp(r.pdn);
      if second < 0 || slots[second].cid >= 0 {
        return;
      }
      var code := ActivateSpecifiedCid(second + 1, if isFallback then index + 1 else 0, r.second);
    }

    method DoIpv4Ipv6Fallback(index: int, r: Reply) returns (ok: bool)
      requires Sized() && Index(index)
      modifies slots, holders
      ensures (View(), ok) == Ipv4Ipv6Fallback(old(View()), index, r)
    {
      if r.ipv4.contextRejected || ErrorHandling(r.ipv4.data) != Success {
        return false;
      }
      UpdatePdpCid(index + 1, 1);
      var second := GetPdp(r.pdn);
      if second < 0 || slots[second].cid >= 0 {
        PutPdp(second);
      } else {
        var code := ActivateSpecifiedCid(second + 1, 0, r.second);
      }
      ok := true;
    }

    method AcquireSlot(pdn: PdnInfo) returns (index: int)
      requires Sized()
      modifies slots
      ensures (View(), index) == Acquire(old(View()), pdn)
    {
      var matched := GetApnMatchedCidIndex(pdn);
      index := GetPdpByIndex(matched);
      if index < 0 {
        index := GetPdp(pdn);
      }
    }

    /** One pass through the retry loop, up to the decision to jump back. */
    method TryOnce(q: Request, r: Reply, retries: nat, delays: nat) returns (v: Verdict)
      requires Sized()
      modifies slots, holders
      ensures Attempt(old(View()), q, r, retries, delays) == PassOf(v, View())
    {
      var index := AcquireSlot(r.pdn);
      if index < 0 {
        return GaveUp(-1);
      }
      var code := ActivateSpecifiedCid(index + 1, 0, r.first);
      v := GaveUp(index);
      match code {
        case NeedRetry =>
          if retries < MAX_RETRIES {
            v := GoAgain(retries + 1, delays);
          }
        case NeedRetryAfterDelay =>
          if !q.modemDataAllowed && delays < MAX_DELAYED_RETRIES {
            v := GoAgain(retries, delays + 1);
          }
        case NeedFallback =>
          var ok := DoIpv4Ipv6Fallback(index, r);
          if ok {
            v := CameUp(index, true);
          }
        case NeedAnotherCid =>
          UpdatePdpCid(index + 1, -1);
          v := GoAgain(retries, delays);
        case Success =>
          CheckFallBackFor(q.pdpType, index, r);
          v := CameUp(index, false);
        case _ =>
      }
    }

    /** The error exit of requestSetupDataCall. */
    method GiveUpSetup(index: int)
      requires Sized() && (index == -1 || Index(index))
      modifies slots, holders
      ensures View() == Abandon(old(View()), index)
    {
      if index >= 0 {
        PutPdp(slots[index].secondary - 1);
        PutPdp(index);
      }
      PutUnusablePdpCid();
    }

    /** The success exit of requestSetupDataCall. */
    method KeepSetup(index: int)
      requires Sized() && Index(index)
      modifies slots, holders
      ensures View() == Hold(PutUnusable(old(View())), index)
    {
      PutUnusablePdpCid();
      holders[index] := holders[index] + 1;
    }

    /** The retry loop: going round is the jump to RETRY. */
    method SetUpWithRetries(q: Request, replies: nat -> Reply) returns (exit: Exit, attempts: nat)
      requires Sized()
      modifies slots, holders
      ensures Outcome(View(), exit, attempts) == Setup(old(View()), q, replies)
    {
      var retries, delays := 0, 0;
      attempts := 0;
      ghost var whole := Setup(View(), q, replies);
      while true
        invariant HeadsFor(whole, View(), q, replies, attempts, retries, delays)
        decreases Measure(View(), retries, delays)
      {
        ghost var before := View();
        var v := TryOnce(q, replies(attempts), retries, delays);
        Unroll(whole, before, q, replies, attempts, retries, delays, v, View());
        match v {
          case GoAgain(r, d) =>
            retries, delays, attempts := r, d, attempts + 1;
          case GaveUp(index) =>
            GiveUpSetup(index);
            return Failed, if index >= 0 then attempts + 1 else attempts;
          case CameUp(index, byFallback) =>
            KeepSetup(index);
            return if byFallback then UpByFallback(index) else Up(index), attempts + 1;
        }
      }
    }

    /** requestSetupDataCall, up to the list query. */
    method RequestSetupDataCall(q: Request, replies: nat -> Reply) returns (exit: Exit, attempts: nat)
      requires Valid()
      modifies slots, holders
      ensures Valid() && NoneUnusable(View()) && attempts <= 17
      ensures Outcome(View(), exit, attempts) == Setup(old(View()), q, replies)
      ensures exit == Failed ==> BusySet(View()) == old(BusySet(View()))
      ensures exit != Failed ==> Index(exit.index)
      ensures old(Held(View())) ==> (Held(View()) <==> !LastAnswerFallsBack(old(View()), q, replies))
    {
      SetupFacts(View(), q, replies);
      exit, attempts := SetUpWithRetries(q, replies);
    }

    /** The list query that completes the token of a setup. */
    method CompleteSetup(index: int, list: ListReply) returns (ok: bool)
      requires Valid() && Index(index)
      modifies slots, holders
      ensures Valid() && (old(Held(View())) ==> Held(View()))
      ensures (View(), ok) == Complete(old(View()), index, list)
    {
      PutBothKeepsPaired(View(), Partner(View(), index) - 1, index);
      PutKeeps(View(), Partner(View(), index) - 1);
      PutKeeps(Put(View(), Partner(View(), index) - 1), index);
      ok := list == ContextActive;
      if list == ContextInactive {
        PutPdp(slots[index].secondary - 1);
        PutPdp(index);
      }
    }

    method TakeDown(cid: int) returns (d: Deactivation)
      requires Sized()
      modifies slots, holders
      ensures (View(), d) == Deactivate(old(View()), cid)
    {
      if cid < 1 {
        return Refused;
      }
      if cid <= MAX_PDP && holders[cid - 1] > 0 {
        holders[cid - 1] := holders[cid - 1] - 1;
      }
      if cid > MAX_PDP || slots[cid - 1].state == Idle {
        return AlreadyDown;
      }
      if holders[cid - 1] != 0 {
        return StillHeld;
      }
      PutPdp(slots[cid - 1].secondary - 1);
      PutPdp(cid - 1);
      d := TornDown;
    }

    method DeactivateDataConnection(cid: int) returns (d: Deactivation)
      requires Valid()
      modifies slots, holders
      ensures Valid() && (View(), d) == Deactivate(old(View()), cid)
      ensures old(Held(View())) ==>
        Held(View()) && (d == TornDown <==> old(IsBusy(View(), cid - 1) && View().holders[cid - 1] <= 1))
    {
      StepKeepsPaired(View(), DeactivateCall(cid));
      if Held(View()) { DeactivateOutcome(View(), cid); }
      d := TakeDown(cid);
    }

    /** A BIP channel joins the first BUSY slot whose context matches. */
    method ReuseSlot(pdn: PdnInfo) returns (index: int)
      requires Valid()
      modifies holders
      ensures Valid() && index == Reusable(pdn, old(View()))
      ensures View() == if index >= 0 then Hold(old(View()), index) else old(View())
    {
      index := -1;
      if pdn.active > 0 {
        for i := 0 to MAX_PDP
          invariant View() == old(View())
          invariant Reusable(pdn, View()) == Reusable(pdn, View(), i)
        {
          if pdn.nCid[i] == i + 1 && slots[i].state == Busy && pdn.apnMatches[i] {
            holders[i] := holders[i] + 1;
            CountsDoNotMatter(old(View()), View().holders);
            return i;
          }
        }
      }
    }

    /** Radio off and modem reset give slots back one by one. */
    method ReleaseAll(busyOnly: bool)
      requires Valid()
      modifies slots, holders
      ensures Valid() && View() == PutAll(old(View()), busyOnly)
      ensures old(Held(View())) ==> Held(View()) && BusySet(View()) == {}
    {
      PutAllKeepsPaired(View(), busyOnly, 0);
      if Held(View()) { PutAllCoherent(View(), busyOnly, 0); }
      for i := 0 to MAX_PDP
        invariant PutAll(View(), busyOnly, i) == PutAll(old(View()), busyOnly)
      {
        if !busyOnly || slots[i].state == Busy {
          PutPdp(i);
        }
      }
    }

    /** The slots that detachGPRS deactivates. */
    method ReleaseContexts()
      requires Valid()
      modifies slots, holders
      ensures Valid() && View() == DetachAll(old(View()))
      ensures old(Held(View())) ==> Held(View()) && BusySet(View()) == {}
    {
      DetachAllKeepsPaired(View(), 0);
      if Held(View()) { DetachAllCoherent(View(), 0); }
      for i := 0 to MAX_PDP
        invariant DetachAll(View(), i) == DetachAll(old(View()))
      {
        if slots[i].state == Busy || slots[i].cid > 0 {
          PutPdp(i);
        }
      }
    }

    /** The modem reports that a context has come up or gone down. */
    method OnCidReported(cid: int, active: bool)
      requires Valid()
      modifies slots
      ensures Valid() && View() == PdpRuns.Step(old(View()), CidReported(cid, active))
      ensures (old(Held(View())) ==> Held(View())) && BusySet(View()) == old(BusySet(View()))
    {
      CidsDoNotMatter(View(), UpdateCid(View(), cid, if active then 1 else 0));
      if 0 < cid <= MAX_PDP {
        UpdatePdpCid(cid, if active then 1 else 0);
      }
    }
  }

  /** What is known of every setup. */
  lemma {:induction false} SetupFacts(t: Table, q: Request, replies: nat -> Reply)
    requires Paired(t)
    ensures var o := Setup(t, q, replies);
      && Paired(o.t) && NoneUnusable(o.t) && o.attempts <= 17
      && (o.exit == Failed ==> BusySet(o.t) == BusySet(t))
      && (o.exit != Failed ==> Index(o.exit.index))
      && (Held(t) ==> (Held(o.t) <==> !LastAnswerFallsBack(t, q, replies)))
  {
    AttemptsBounded(t, q, replies);
    SetupKeepsPaired(t, q, replies, 0, 0, 0);
    SetupIndex(t, q, replies, 0, 0, 0);
    if Setup(t, q, replies).exit == Failed { FailedSetupLeaksNoSlot(t, q, replies, 0, 0, 0); }
    if Held(t) { SetupCounts(t, q, replies); }
  }

  lemma {:induction false} SetupIndex(t: Table, q: Request, replies: nat -> Reply, k: nat, retries: nat, delays: nat)
    requires retries <= MAX_RETRIES && delays <= MAX_DELAYED_RETRIES
    ensures var o := SetupFrom(t, q, replies, k, retries, delays); o.exit == Failed || Index(o.exit.index)
    decreases Measure(t, retries, delays)
  {
    AttemptDecreases(t, q, replies(k), retries, delays);
    match Attempt(t, q, replies(k), retries, delays)
    case Again(t1, retries1, delays1) => SetupIndex(t1, q, replies, k + 1, retries1, delays1);
    case GiveUp(_, _) =>
    case Done(_, _, _) =>
  }
}
