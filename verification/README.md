# Verification model of a vendor RIL daemon

This Dafny project models the stateful parts of the radio interface daemon under
`impl-ril/`, for two SIMs, and proves what they promise over all runs. The modem
is an environment that picks every AT result, every indication and every timer
expiry.

| Component | Modules |
|---|---|
| PDP contexts of one SIM: slots, pairing, holder counts, retry loop, whole runs | `PdpTable`, `PdpSetup`, `PdpOutcome`, `PdpSecondContext`, `PdpDecisions`, `PdpHolders`, `PdpRuns`, and in place `PdpManager` |
| The temporary switch of the default data SIM | `DataSwitch`, `DataMoves`, and in place `DataService` |
| The interface table | `EthTable` |
| The 30-second hold-off of connection status reports | `NrHoldOff`, `NrDecisions`, and in place `NrMonitor` |
| Work modes and the primary SIM | `WorkMode`, `WorkModeRules` |
| The asynchronous test-mode transaction with its locks, retries and two-SIM barrier | `TestModeProtocol`, `TestModeRuns`, `ApplyBarrier`, `LateRejection` |
| Intrusive circular lists: DTMF queue, operator names | `CircularList`, `DtmfQueue`, `OperatorList` |
| CDMA messages, bit by bit | `BitCodec`, `CdmaSms`, `CdmaFormat`, and on buffers `CdmaPdu` |
| Cell-broadcast configuration | `Decimal`, `AtTok`, `BroadcastConfig` |
| Warning segments, APDU chunks, radio access families | `WarningSegments`, `ApduChunks`, `RadioAccess` |

Every component has a specification on values, about which the main theorems are
proved, and, where the program updates arrays, fields or list nodes, a class
whose methods are proved to compute that specification and to keep its invariants. `TestModeProtocol` is a
state machine over the statements of any number of threads. What each operation decides,
and every number the program fixes, is stated in plain numbers and in terms of the state
before the call by `PdpSecondContext`, `PdpDecisions`, `DataMoves`, `NrDecisions`,
`WorkModeRules`, `TestModeRuns` and `CdmaFormat`. Automatic induction is
switched off on every lemma, so each proof is the one written down.

Some promises are false of the code. They are kept as the code has them, with a
concrete run and the exact condition under which the promise holds:

- A network-reject fallback brings a call up on a slot that has already been
  released (`PdpOutcome.FallbackBreaksRest`, `PdpHolders.SetupCounts`).
- A list query that fails after the context came up loses a holder
  (`PdpOutcome.FailedQueryRun`, `PdpRuns.StepBalances`).
- Closing a BIP (bearer independent protocol) channel never switches the data service back
  (`DataSwitch.StrandingRun`, `DataSwitch.StepSettles`).
- A reply to the connection status query that cannot be parsed to its end loses a
  status (`NrHoldOff.MalformedQueryLoses`, `NrHoldOff.StepLosesNothing`).
- A modem reset leaves hold-off timers pending
  (`NrHoldOff.ResetLeavesTimer`, `NrHoldOff.StepKeepsOneLiveTimer`).
- A 5G product saved with NR modes on both SIMs keeps both
  (`WorkMode.InitMakesSafe`).
- Overlapping APPLY requests of the two SIMs can both pass the barrier on one ask
  each (`ApplyBarrier.OverlapPassesTwice`, `ApplyBarrier.StepAccounted`).
- The guard `totalSegments < 10` at `impl-ril/ril_sms.c:1516` drops warnings of ten
  segments or more without a trace (`WarningSegments.LongBatchDropped`).
- Full APDU chunks declare four head bytes that they do not carry
  (`ApduChunks.DeclaredLength`).

`dafny verify dfyconfig.toml` checks the project.

## Model

| member | source | states |
|---|---|---|
| PdpTable.FirstFree | impl-ril/ril_data.c:188-212 | getPDP looks for the lowest IDLE, usable slot that the modem does not use itself: that slot, or none exists |
| PdpTable.MatchedIsFirst | impl-ril/ril_data.c:1569-1589 | the lowest index of an active context with its own number and the APN, or none |
| PdpTable.TakeKeeps | impl-ril/ril_data.c:188-212 | allocating an IDLE slot keeps the pairing, the counts and the blank IDLE slots, and adds exactly that slot to the BUSY set |
| PdpTable.PutKeepsPaired | impl-ril/ril_data.c:214-242 | releasing any slot, or none for an index out of range, leaves a pairing in which its partner is single |
| PdpTable.PutKeeps | impl-ril/ril_data.c:214-242 | releasing keeps counts on BUSY slots only and removes exactly that slot from the BUSY set |
| PdpTable.PutUnusableBlank | impl-ril/ril_data.c:273-283 | afterwards no slot is UNUSABLE; a table without such marks is unchanged |
| PdpTable.CidsDoNotMatter | impl-ril/ril_data.c:285-300 | the pairing, the counts and the BUSY set do not depend on anything updatePDPCid changes |
| PdpTable.PairKeeps | impl-ril/ril_data.c:326-344 | pairing two single BUSY slots keeps the symmetric, irreflexive involution with one primary end |
| PdpTable.CandidatesTake | impl-ril/ril_data.c:188-212 | allocation uses up one of the slots a setup may still try |
| PdpTable.CandidatesPut | impl-ril/ril_data.c:214-242 | release gives that slot back to the setup loop |
| PdpTable.CandidatesMark | impl-ril/ril_data.c:285-300 | an UNUSABLE mark takes a blank slot out of the setup loop |
| PdpSetup.FailedActivation | impl-ril/ril_data.c:786-884 | an activation that does not succeed has already released its slot, so the loop is back where it was |
| PdpSetup.AttemptDecreases | impl-ril/ril_data.c:1601-1659 | a pass that jumps back uses up exactly one retry, one delayed retry or one candidate slot |
| PdpSetup.AttemptsBounded | impl-ril/ril_data.c:1591-1659 | whatever the modem answers, at most 5 + 6 + (usable slots) primary activations, never more than 17 |
| PdpSetup.AttemptsAttained | impl-ril/ril_data.c:1591-1659 | the bound is exact: some sequence of answers reaches it from every table with a blank slot to try |
| PdpSetup.SetupKeepsPaired | impl-ril/ril_data.c:1591-1698 | on every exit, the network-reject fallback included, the pairing is an involution between BUSY slots and no slot is UNUSABLE |
| PdpSetup.CheckFallBackKeepsPaired | impl-ril/ril_data.c:930-957 | the second context for the missing IP version keeps the pairing, whether it comes up or not (when it does: PdpSecondContext.PairedExactly) |
| PdpSetup.FallbackKeepsPaired | impl-ril/ril_data.c:1030-1074 | the network-reject fallback (outside the boots variant) keeps the pairing too |
| PdpSetup.ActivateKeeps | impl-ril/ril_data.c:786-884 | activating a slot, alone or as the second half of a pair, keeps the pairing and changes the BUSY set only on failure, by that slot |
| PdpSetup.FailedSetupLeaksNoSlot | impl-ril/ril_data.c:1680-1698 | from any table, a setup that leaves by its error exit has the BUSY set it started with |
| PdpOutcome.FallbackAnswered | impl-ril/ril_data.c:1644-1649 | from any table a setup comes up by the network-reject fallback exactly if the last answers are a context rejected with cause 128 and then a working IPv4 activation; never if the modem does not answer like that |
| PdpOutcome.SetupOutcome | impl-ril/ril_data.c:1591-1698 | from rest: a failed setup leaves the whole table unchanged; a successful one adds its slot with one holder and at most one partner; the table is at rest if and only if the last answers were not a network reject and then a working IPv4 activation |
| PdpOutcome.FallbackBreaksRest | impl-ril/ril_data.c:1644-1649 | the excluded case exists: a concrete run in which the fallback leaves a holder on an IDLE slot, because the slot had already been released |
| PdpOutcome.FailedTokenLeaks | impl-ril/ril_data.c:1520-1541 | a setup whose token the list query fails gives back everything it took if and only if the modem reported the context inactive and a second slot, if any, is the paired partner |
| PdpOutcome.FailedQueryRun | impl-ril/ril_data.c:1591-1671 | the failing side is reachable: from an empty table a setup whose list query fails leaves a BUSY slot with a holder |
| PdpOutcome.DeactivateOutcome | impl-ril/ril_data.c:1700-1766 | from every coherent table (paired, counts on BUSY slots only): a context is torn down exactly by the call that leaves its count at 0 on a BUSY slot, together with its partner; otherwise only the count drops, never below 0; an id below 1 is refused and an id without a slot changes nothing |
| PdpHolders.SetupCounts | impl-ril/ril_data.c:1591-1698 | from every coherent table, ids on idle slots included: a failed setup leaves all counts alone; a successful one gives one holder to a slot that was idle, whose partner was idle too; only BUSY slots have holders afterwards, if and only if the last answers were not such a reject |
| PdpSecondContext.SecondContext | impl-ril/ril_data.c:1601-1659 | from rest, whatever the answers: a setup that comes up has the slot of the matching active context, or the lowest open one; the first other open slot is its pair, up by itself, or blank, by the last answers; no other slot changes |
| PdpSecondContext.PairedExactly | impl-ril/ril_data.c:930-957 | an IPv4v6 setup ends paired, to the first other open slot, exactly if there is one, the network wants the other IP version and the second activation works with both; IPv4 and IPv6 end with two single contexts exactly if the second activation works; other requests take one slot |
| PdpSecondContext.ComesUpAtOnce | impl-ril/ril_data.c:1621-1659 | a first activation that works ends the setup after one attempt on the chosen slot |
| PdpSecondContext.PairedRun | impl-ril/ril_data.c:930-957 | from the empty table: IPv4v6 gives slots 0 and 1 BUSY and paired, IPv4 and IPv6 the two by themselves, other types slot 0 |
| PdpDecisions.Retried | impl-ril/ril_data.c:1632-1656 | cause 288 is retried five times, 26 and 47 six times after a delay unless the data service is on an allowed SIM, 253 marks the slot with id 0 and tries another; any other failure ends the setup |
| PdpDecisions.RejectedByNetwork | impl-ril/ril_data.c:1644-1649 | cause 128 ends it too unless IPv4 then works: that context stays on an IDLE slot, and IPv6 is on the first other open slot exactly if its activation works |
| PdpDecisions.NothingToTry | impl-ril/ril_data.c:1621-1631 | without a slot to try, the setup ends without an activation |
| PdpDecisions.Seventeen | impl-ril/ril_data.c:1591-1659 | 17 activations on an empty table |
| PdpDecisions.TokenCompleted | impl-ril/ril_data.c:1502-1541 | the token succeeds exactly if the context is active; an inactive one is given back with its partner, a failed query gives nothing back |
| PdpDecisions.ContextEndedExactly | impl-ril/ril_data.c:3186-3220 | a context ended by the network loses its holders and, with an open channel, is given back with its partner; nothing happens to a slot that is not BUSY |
| PdpDecisions.CidReportedExactly | impl-ril/ril_data.c:3135-3139 | a reported id sets or clears the id of its own slot and nothing else |
| PdpDecisions.UpdateCidExactly | impl-ril/ril_data.c:285-300 | the three meanings of an update of an id, on its own slot only |
| PdpDecisions.DetachExactly | impl-ril/ril_data.c:2172-2187 | after a detach no slot is BUSY or has an id, those that were are blank, and the others keep their counts |
| PdpRuns.RunKeepsPaired | impl-ril/ril_data.c:188-242 | in every run of setups, channel opens, deactivations, context ends, reported ids, detaches, radio-off and modem reset, the pairing stays a symmetric, irreflexive involution with both ends BUSY and one primary |
| PdpRuns.ReusableIsFirst | impl-ril/ril_data.c:4711-4731 | the lowest index of a BUSY slot whose active context has the APN, or none |
| PdpRuns.StepHolds | impl-ril/ril_data.c:3135-3139 | every such event but a fallback success keeps counts on BUSY slots only; a table at rest stays at rest if and only if the event does not give an id to an idle slot |
| PdpRuns.RunHolds | impl-ril/ril_data.c:1660-1671 | in every run without a fallback success, reported ids and detaches included, the pairing holds and counts are positive only on BUSY slots |
| PdpRuns.RunRests | impl-ril/ril_data.c:1660-1671 | if moreover no id is given to an idle slot, every slot that is not BUSY is blank and none is UNUSABLE |
| PdpRuns.NeverRejectsNeverFallsBack | impl-ril/ril_data.c:1644-1649 | a modem that never answers with such a reject never causes a fallback, whatever the run |
| PdpRuns.StepBalances | impl-ril/ril_data.c:1700-1746 | from every coherent table a slot's count stays equal to the number of its clients if and only if the event is not a forced release or a list query that fails after the context came up |
| PdpRuns.RunBalances | impl-ril/ril_data.c:1660-1746 | over whole runs of such events the count equals the outstanding clients |
| PdpRuns.PutAllCoherent | impl-ril/ril_network.c:1710-1715 | releasing the BUSY slots one by one, from a given index on, leaves exactly the BUSY slots and counts below that index |
| PdpRuns.DetachAllCoherent | impl-ril/ril_data.c:2172-2187 | so does detaching, which also releases idle slots with an id |
| PdpRuns.EndedBalances | impl-ril/ril_data.c:3186-3220 | a context ended by the network (cause 104) loses its holders; the counts stay right if and only if it had none, and neither had its partner |
| PdpManager.GetApnMatchedCidIndex | impl-ril/ril_data.c:1569-1589 | scanning loop: the first modem context whose APN and protocol match |
| PdpManager.Manager.GetPdp | impl-ril/ril_data.c:188-212 | in-place allocation equals the specified one |
| PdpManager.Manager.GetPdpByIndex | impl-ril/ril_data.c:244-260 | in-place allocation of a chosen slot |
| PdpManager.Manager.PutPdp | impl-ril/ril_data.c:214-242 | in-place release of a slot, unpairing of its partner and reset of its count |
| PdpManager.Manager.PutUnusablePdpCid | impl-ril/ril_data.c:273-283 | loop clearing every UNUSABLE mark |
| PdpManager.Manager.UpdatePdpCid | impl-ril/ril_data.c:285-300 | the three meanings of its state argument |
| PdpManager.Manager.SetPdpMapping | impl-ril/ril_data.c:326-344 | in-place pairing |
| PdpManager.Manager.IsExistActivePdp | impl-ril/ril_data.c:346-361 | true exactly if some slot is BUSY |
| PdpManager.Manager.ActivateSpecifiedCid | impl-ril/ril_data.c:786-884 | one activation in place, release on failure and pairing on success included |
| PdpManager.Manager.CheckFallBackFor | impl-ril/ril_data.c:930-957 | second activation in place, equal to the specified one, which PdpSecondContext.SecondContext states slot by slot |
| PdpManager.Manager.DoIpv4Ipv6Fallback | impl-ril/ril_data.c:1030-1074 | network-reject fallback in place |
| PdpManager.Manager.TryOnce | impl-ril/ril_data.c:1601-1659 | one pass through the retry loop in place |
| PdpManager.Manager.RequestSetupDataCall | impl-ril/ril_data.c:1591-1698 | the retry loop terminates with the specified table, exit and number of attempts, at most 17; the pairing is kept, no slot is UNUSABLE, a failure keeps the BUSY set, and counts stay on BUSY slots exactly if the last answers were not a network reject |
| PdpManager.Manager.CompleteSetup | impl-ril/ril_data.c:1520-1541 | completion of the token by the list query; pairing and counts are kept |
| PdpManager.Manager.DeactivateDataConnection | impl-ril/ril_data.c:1700-1746 | pairing and counts are kept, and the context is torn down exactly if it was BUSY with at most one holder |
| PdpManager.Manager.ReuseSlot | impl-ril/ril_data.c:4711-4731 | loop that gives one more holder to the first BUSY slot whose context matches |
| PdpManager.Manager.ReleaseAll | impl-ril/ril_data.c:157-186 | release of all slots; afterwards none is BUSY and none has holders |
| PdpManager.Manager.ReleaseContexts | impl-ril/ril_data.c:2172-2187 | loop of detachGPRS; afterwards no slot is BUSY and none has holders |
| PdpManager.Manager.OnCidReported | impl-ril/ril_data.c:3135-3139 | a reported id changes neither pairing, counts nor the BUSY set |
| DataSwitch.StepSettles | impl-ril/ril_data.c:2240-2273 | one request from a settled service (the data service is on the allowed SIM, or the other SIM has a BUSY context) leaves it settled if and only if it is not a BIP close of the last context on the temporary SIM |
| DataSwitch.RunSettles | impl-ril/ril_data.c:2589-2623 | over whole runs the temporary switch of the default data SIM is undone, ids reported by the modem included |
| DataSwitch.SetupOnSettles | impl-ril/ril_data.c:1534-1538 | every exit of a setup, the failure by the list query included, switches back or leaves the call up |
| DataSwitch.SetPreferredSettles | impl-ril/ril_data.c:2240-2273 | choosing the preferred SIM settles the service, for either SIM count and any radio state |
| DataSwitch.DeactivateSettles | impl-ril/ril_data.c:2618-2624 | a deactivation leaves a settled service settled; that it moves exactly when no slot is BUSY is DataMoves.MovesExactlyWhenIdle |
| DataSwitch.BipCloseSettles | impl-ril/ril_data.c:4743-4757 | the BIP close never switches back: settled afterwards if and only if it does not strand the service |
| DataSwitch.StrandingRun | impl-ril/ril_data.c:4692-4757 | a reachable run in which a BIP close strands the data service on the SIM that is not allowed data |
| DataMoves.DeactivateMoves | impl-ril/ril_data.c:2618-2624 | after a deactivation on a SIM that is not allowed data the service moves to the other SIM exactly if no slot is BUSY; otherwise nothing changes but the released context and its partner; the other SIM is never touched |
| DataMoves.MovesExactlyWhenIdle | impl-ril/ril_data.c:2618-2624 | a SIM that has the service without being allowed data gives it up exactly when none of its slots is BUSY |
| DataMoves.TwoCallsRun | impl-ril/ril_data.c:2618-2624 | concrete run: the end of the first of two calls leaves the service there, that of the second brings it back |
| DataMoves.SetupMoves | impl-ril/ril_data.c:2589-2617 | which setups are refused, which move the service, when it moves back, and which SIM each move detaches |
| DataMoves.BipOpenStays | impl-ril/ril_data.c:4692-4741 | a channel opens only on an allowed SIM, by one more holder or a setup, and moves nothing |
| DataMoves.BipCloseStays | impl-ril/ril_data.c:4743-4757 | a channel close releases the context and moves nothing |
| DataMoves.PreferMoves | impl-ril/ril_data.c:2240-2273 | the preferred SIM alone is allowed data and has the service; a second one is detached if its radio is on; other indices are refused |
| DataMoves.ReportStays | impl-ril/ril_data.c:3135-3139 | a reported id moves nothing |
| DataMoves.RadioOffReleases | impl-ril/ril_network.c:1710-1715 | radio off blanks the BUSY slots of the allowed SIM, keeps the others and moves nothing |
| DataService.DataSims.AttachGprs | impl-ril/ril_data.c:2107-2155 | moves the data service in place |
| DataService.DataSims.DetachGprs | impl-ril/ril_data.c:2157-2213 | releases the slots of one SIM that are BUSY or have an id, and leaves the other SIM alone |
| DataService.DataSims.SwitchData | impl-ril/ril_data.c:2216-2224 | detach one SIM, attach the other |
| DataService.DataSims.RequestSetPreferredDataModem | impl-ril/ril_data.c:2240-2273 | the specified step; a settled service is settled afterwards |
| DataService.DataSims.SetupDataCall | impl-ril/ril_data.c:1591-1698 | in-place setup with both ways of switching back |
| DataService.DataSims.OnSetupDataCallRequest | impl-ril/ril_data.c:2589-2617 | admission, temporary switch, setup; a settled service is settled afterwards, unless the last answers were a network reject |
| DataService.DataSims.OnDeactivateDataCallRequest | impl-ril/ril_data.c:2618-2624 | deactivation and switch back in place, equal to the step that DataMoves.DeactivateMoves states; a settled service is settled afterwards |
| DataService.DataSims.RequestSetupDataConnection | impl-ril/ril_data.c:4692-4741 | BIP open: reuse a matching BUSY context with one more holder, or set one up; a settled service is settled afterwards, unless the last answers were a network reject |
| DataService.DataSims.RequestDeactiveDataConnection | impl-ril/ril_data.c:4743-4757 | BIP close: a settled service is settled afterwards exactly if the close does not strand it |
| DataService.DataSims.OnCidReported | impl-ril/ril_data.c:3135-3139 | a reported id keeps a settled service settled |
| DataService.DataSims.OnRadioOff | impl-ril/ril_network.c:1710-1715 | releases the BUSY slots of the SIM that is allowed data; a settled service stays settled |
| EthTable.SetRefines | impl-ril/ril_data.c:1096-1117 | the owner without an interface gets the lowest idle row, all others keep theirs; the table stays a partial bijection |
| EthTable.CleanRefines | impl-ril/ril_data.c:1138-1151 | takes away exactly the named owner's row, but never that of cid 6 or above |
| EthTable.RunKeepsBijective | impl-ril/ril_data.c:1096-1151 | all runs of sets and cleans keep the partial bijection |
| EthTable.NameRoundTrip | impl-ril/ril_data.c:1153-1196 | getCidByEthName undoes getEthNameByCid for every owner, and gives -1 for an owner without a row |
| EthTable.NameOfOtherSim | impl-ril/ril_data.c:1180-1196 | an interface name is read as -1 on the SIM that does not own it |
| EthTable.OwnerIsUnique | impl-ril/ril_data.c:1119-1136 | the lookup finds the only row of an owner |
| EthTable.EightRows | impl-ril/ril_data.c:1096-1151 | an owner without a row gets one exactly if one of eight is idle, and loses it exactly if its cid is 0 to 5 |
| EthTable.Interfaces.SetEth | impl-ril/ril_data.c:1096-1117 | keeps the bijection; afterwards only (SIM, cid) may have gained a row, the lowest idle one |
| EthTable.Interfaces.CleanEth | impl-ril/ril_data.c:1138-1151 | keeps the bijection; afterwards only (SIM, cid) may have lost its row, and only for cids up to 5 |
| EthTable.Interfaces.GetEthIndexBySocketId | impl-ril/ril_data.c:1119-1136 | loop: lowest owned row, or -1 |
| EthTable.Interfaces.GetEthNameByCid | impl-ril/ril_data.c:1164-1178 | a name that is read back as this cid, or as -1 if it has no row |
| EthTable.Interfaces.GetCidByEthName | impl-ril/ril_data.c:1180-1196 | the cid whose name this is, or -1 if that cid has no row |
| Decimal.AtoiPrint | impl-ril/ril_data.c:1180-1196 | atoi undoes "%d" whatever non-digit text follows |
| NrHoldOff.StepLosesNothing | impl-ril/ril_network.c:5641-5781 | every event, modem reset included, leaves no update lost if and only if it is not a query reply that cannot be parsed to its end after changing the status |
| NrHoldOff.NothingDroppedNothingLost | impl-ril/ril_network.c:764-804 | in every state of every run in which no reply drops a status, the last status sent equals the current one or a timer that will send it is pending for that SIM |
| NrHoldOff.NoLostUpdate | impl-ril/ril_network.c:764-804 | the same for every run whose query replies can all be parsed to their end, modem resets included |
| NrHoldOff.StepKeepsTimersOk | impl-ril/ril_network.c:5641-5781 | every event whatsoever keeps serials fresh and a waiting SIM's own timer pending |
| NrHoldOff.QueryHandles | impl-ril/ril_misc.c:358-410 | the second writer of the status: reports unless waiting, and loses the status exactly if a line cannot be parsed |
| NrHoldOff.ResetLosesNothing | impl-ril/ril_network.c:155-184 | a modem reset clears the waiting flag but not the pending timers |
| NrHoldOff.CsconHandles | impl-ril/ril_network.c:5641-5742 | a connection indication touches its own SIM only and never loses the status (what it decides: NrDecisions.CsconDecides) |
| NrHoldOff.NrCfgHandles | impl-ril/ril_network.c:5743-5781 | a configuration indication never loses the status |
| NrHoldOff.TimerHandles | impl-ril/ril_network.c:764-782 | an expiring timer reports the status held back |
| NrHoldOff.CancelWaitHandles | impl-ril/ril_network.c:784-804 | cancelling stops the timer and reports at once |
| NrHoldOff.MalformedQueryLoses | impl-ril/ril_misc.c:358-410 | concrete run in which a malformed reply loses a status |
| NrHoldOff.InitiallyNothingLost | impl-ril/ril_network.c:155-184 | the initial state satisfies the invariants |
| NrHoldOff.StepKeepsOneLiveTimer | impl-ril/ril_network.c:5683-5735 | waiting means exactly one pending timer, the remembered one; every event keeps this if and only if it is not a modem reset while some SIM waits |
| NrHoldOff.OneLiveTimerBetweenResets | impl-ril/ril_network.c:776-804 | between modem resets a SIM waits exactly when its one timer is pending, whatever query replies come |
| NrHoldOff.ResetLeavesTimer | impl-ril/ril_network.c:155-184 | the excluded case is reachable: from the initial state, a poll, an idle and a connected indication and a modem reset leave a timer without a waiting SIM |
| NrHoldOff.HeldBack | impl-ril/ril_network.c:5683-5735 | while a SIM waits, a connected event outside a secondary cell group is not reported, and the timer later reports that very status |
| NrDecisions.CsconDecides | impl-ril/ril_network.c:5680-5742 | every +CSCON, by the variables before it: a SIM that does not wait holds it back, behind a fresh timer, exactly under the three conditions and otherwise reports at once; a waiting one is ended exactly by the secondary cell group or an unrestricted idle state, and otherwise sends nothing |
| NrDecisions.CsconRemembers | impl-ril/ril_network.c:5680-5742 | the history it leaves behind, and that the other SIM is untouched |
| NrDecisions.CeregDecides | impl-ril/ril_network.c:5333-5380 | an LTE registration brings a waiting status forward exactly if the SIM is not registered |
| NrDecisions.C5gregDecides | impl-ril/ril_network.c:5381-5436 | a 5G one exactly if the SIM has just lost its registration in a known state |
| NrDecisions.PollDecides | impl-ril/ril_network.c:1042-1068 | a poll exactly if the SIM is neither in 4G nor in stand-alone 5G; technology 13 means not restricted |
| NrDecisions.NrCfgDecides | impl-ril/ril_network.c:5743-5781 | a configured secondary cell group reports at once, one no longer configured starts the waiting |
| NrDecisions.QueryDecides | impl-ril/ril_misc.c:358-410 | a query reply is taken over, and reported exactly if the SIM does not wait |
| NrDecisions.LastLineCounts | impl-ril/ril_misc.c:358-410 | of several lines the last one counts |
| NrDecisions.TimerDecides | impl-ril/ril_network.c:764-782 | an expiring timer ends the waiting with the status held back; a stopped one changes nothing |
| NrDecisions.ResetForgets | impl-ril/ril_network.c:155-184 | a modem reset forgets all but the status and the timers |
| NrDecisions.FlickerRun | impl-ril/ril_network.c:5680-5742 | from the initial state: a restricted idle after the secondary cell group is never reported if the group comes back, and is told by the timer if it does not |
| NrMonitor.HoldOff.CancelTimerNrStateChanged | impl-ril/ril_network.c:784-795 | flag cleared and status sent, in place |
| NrMonitor.HoldOff.CancelTimerOperation | impl-ril/ril_network.c:797-804 | timer removed and status sent if waiting, in place |
| NrMonitor.HoldOff.ProcessRequestTimerDelay | impl-ril/ril_network.c:764-782 | timer callback; fresh serials, nothing lost and one live timer are kept |
| NrMonitor.HoldOff.ProcessCscon | impl-ril/ril_network.c:5641-5742 | connection indication in place, equal to the step that NrDecisions.CsconDecides states; fresh serials, nothing lost and one live timer are kept |
| NrMonitor.HoldOff.ProcessCereg | impl-ril/ril_network.c:5333-5380 | LTE registration indication; fresh serials, nothing lost and one live timer are kept |
| NrMonitor.HoldOff.ProcessC5greg | impl-ril/ril_network.c:5381-5436 | 5G registration indication; fresh serials, nothing lost and one live timer are kept |
| NrMonitor.HoldOff.RequestRegistrationState | impl-ril/ril_network.c:1040-1105 | registration poll; fresh serials, nothing lost and one live timer are kept |
| NrMonitor.HoldOff.ProcessNrCfgInfo | impl-ril/ril_network.c:5743-5781 | configuration indication; fresh serials, nothing lost and one live timer are kept |
| NrMonitor.HoldOff.OnQuerySignalConnStatus | impl-ril/ril_misc.c:358-410 | query reply: loses a status exactly if it cannot be parsed to its end and changes what nobody will tell; timers are kept |
| NrMonitor.HoldOff.OnModemResetNetwork | impl-ril/ril_network.c:155-184 | reset loop: nothing is lost, and one live timer is kept exactly if no SIM waits |
| WorkMode.InitMakesSafe | impl-ril/ril_network.c:215-345 | initialisation syncs the persisted pair and leaves the non-primary SIM without a mode reserved for the primary one, if and only if a 5G product was not saved with NR modes on both SIMs |
| WorkMode.SwapFollowsPrimary | impl-ril/ril_network.c:3818-3888 | a capability apply and the CME 15 repair move both modes along with the primary role |
| WorkMode.StepKeepsSafe | impl-ril/ril_network.c:2267-2514 | one request, apply, radio power-on or data-card choice keeps the non-primary SIM safe and the saved pair in sync |
| WorkMode.RunKeepsSafe | impl-ril/ril_network.c:2267-2562 | no run gives the non-primary SIM a primary-capable mode (LWG_WG) or anything but GSM_ONLY (LWG_G, WG_G, LG_G) |
| WorkMode.SafeFromStart | impl-ril/ril_network.c:198-345 | the same from the persisted settings on |
| WorkMode.ReloadIsIdle | impl-ril/ril_network.c:288-345 | reloading synced, safe modes changes nothing |
| WorkMode.GsmOnlyIsForever | impl-ril/ril_network.c:215-345 | a product with a GSM second SIM that once has both SIMs at GSM_ONLY never leaves that state |
| WorkModeRules.EngineeringTable | impl-ril/ril_network.c:2284-2390 | the work mode of every engineering request, by configuration and role |
| WorkModeRules.FrameworkTable | impl-ril/ril_network.c:2391-2470 | the work mode of every framework request, by configuration, role and the product's setting |
| WorkModeRules.NetTypeOutcome | impl-ril/ril_network.c:2471-2562 | a request sets and saves the mode exactly if it is outside a call, known, new, accepted and for this SIM; otherwise nothing changes |
| WorkModeRules.ReloadOutcome | impl-ril/ril_network.c:288-345 | reloading changes the second SIM only, to 10 or 255, in exactly the two cases |
| WorkModeRules.PrimaryChoice | impl-ril/ril_network.c:215-262 | which SIM is primary after initialisation |
| WorkModeRules.RoleOutcome | impl-ril/ril_network.c:3818-3888 | when the primary role moves, and whether the modes move with it |
| WorkModeRules.PrimaryModeRun | impl-ril/ril_network.c:2471-2562 | concrete requests of LWG_WG: carried out on the primary SIM, ignored on the second |
| WorkMode.WorkModes.LoadWorkModes | impl-ril/ril_network.c:288-345 | initWorkMode in place |
| WorkMode.WorkModes.SetWorkMode | impl-ril/ril_network.c:3818-3849 | exchange of the two modes in place |
| WorkMode.WorkModes.RequestSetPreferredNetType | impl-ril/ril_network.c:2267-2562 | request to work mode: the saved pair stays in sync and the second SIM safe |
| WorkMode.WorkModes.ApplySetRadioCapability | impl-ril/ril_network.c:3865-3888 | the primary SIM keeps its mode when the role moves; the saved pair stays in sync and the second SIM safe |
| WorkMode.WorkModes.RadioPower | impl-ril/ril_network.c:1789-1803 | reload and repair after CME ERROR 15: the saved pair stays in sync and the second SIM safe |
| WorkMode.WorkModes.SaveDataCardProp | impl-ril/ril_data.c:2227-2238 | primary role follows the data card only for LWG_LWG; the second SIM stays safe |
| WorkMode.WorkModes.constructor | impl-ril/ril_network.c:215-345 | start from the persisted settings: safe if and only if a 5G product was not saved with NR modes on both SIMs |
| TestModeProtocol.NextKeepsInv | impl-ril/ril_network.c:3857-4010 | every step of every thread and of whoever takes the registered entry keeps the lock, token and barrier invariant |
| TestModeProtocol.RunKeepsInv | impl-ril/ril_network.c:2284-2573 | the same over all runs and interleavings of any number of requests on both SIMs |
| TestModeProtocol.ExactlyOnce | impl-ril/ril_network.c:2541-2573 | in every reachable state no token has been completed twice and no power lock released more often than taken; a settled request has completed once and released all; at most one transaction is outstanding over both SIMs |
| ApplyBarrier.StepAccounted | impl-ril/ril_network.c:3960-3975 | every pass through the APPLY barrier uses up one ask of each SIM, if and only if the step does not race with another request inside the barrier |
| ApplyBarrier.EveryPassUsesAsks | impl-ril/ril_network.c:3960-3975 | over all runs in which APPLY requests take turns inside the barrier, passes plus the asks still open equal the asks of each SIM, and no more requests go on to the command than have passed |
| ApplyBarrier.OverlapPassesTwice | impl-ril/ril_network.c:3960-3975 | the excluded case is reachable: from the initial state two overlapping requests both pass on one ask of each SIM |
| TestModeProtocol.ReleasedByOwner | impl-ril/impl_ril.c:1888-1911 | a lock is only released on behalf of the transaction that holds it, although another thread may do so |
| TestModeProtocol.NoDeadlock | impl-ril/ril_network.c:4619-4649 | as long as some request is not settled some step is possible |
| TestModeProtocol.RunsAreFinite | impl-ril/ril_network.c:2541-2573 | without new requests every run is finite, retries included (how many there are: TestModeRuns.RetriedExactly) |
| TestModeProtocol.QuietMeansDone | impl-ril/ril_network.c:5843-5875 | when no step is possible, every token has been completed exactly once and all locks are free |
| TestModeRuns.RetriedExactly | impl-ril/ril_network.c:2541-2555 | a request whose entry is registered and whose command has been sent n + 1 times is sent again after a busy answer exactly if n < 3, with a fresh entry; any other failure is final |
| TestModeRuns.AtMostThreeRetries | impl-ril/ril_network.c:2541-2555 | in every run no request is retried more than three times, and its counter is the number of its busy answers |
| TestModeRuns.ThreeBusyThenAccepted | impl-ril/ril_network.c:2541-2566 | from the initial state: three busy answers and an accepted fourth command, completed once with all locks free; a fourth busy answer is final |
| TestModeRuns.FailedRun | impl-ril/ril_network.c:2541-2573 | a command that fails at once is answered and unlocked by the request itself |
| TestModeRuns.TurnedDownRuns | impl-ril/ril_network.c:2471-2514 | a request turned down, at once or by the work modes, sends no command and answers |
| TestModeRuns.WaitsAndChoices | impl-ril/ril_network.c:2541-2573 | a request whose command is out only waits for its answer; where a thread may decide |
| TestModeRuns.LockedStatements | impl-ril/ril_network.c:2471-2562 | in every reachable state a registered command has both power locks, and whoever touches the work modes has their mutex |
| TestModeRuns.ThroughTheModes | impl-ril/ril_network.c:3818-3849 | no request gets past the mutex of the work modes to its command, nor a radio power-on past its reading of them |
| TestModeRuns.PowerRuns | impl-ril/ril_network.c:1650-1757 | radio power on, with and without the repair, and off |
| TestModeRuns.CapabilityRuns | impl-ril/ril_network.c:3857-4010 | both SIMs apply: the first is answered at the barrier, the second sends the command; if it fails, the locks are released before the answer |
| LateRejection.LateRejectionCompletesTwice | impl-ril/ril_network.c:2541-2573 | the assumption that a rejected command produces no indication is needed: otherwise the token is completed twice and a lock released twice |
| LateRejection.LateRejectionRun | impl-ril/ril_network.c:2541-2573 | that state is reachable: a concrete run from the initial state that completes one token twice |
| CircularList.List.Init | impl-ril/ril_call.c:129-132 | an empty ring |
| CircularList.List.AddTail | impl-ril/ril_call.c:134-141 | pointers rewritten in place: the ring holds one more item, last |
| CircularList.List.Remove | impl-ril/ril_call.c:143-148 | only the two neighbours are touched: the ring holds every other item in order, and the removed item keeps its next pointer |
| CircularList.List.Clear | impl-ril/ril_call.c:161-171 | loop that removes every item while following saved next pointers |
| DtmfQueue.StoppedIsPrefix | impl-ril/ril_call.c:907-994 | whatever the modem answers, tones stopped since the queue was last emptied are a prefix of those started and the rest is queued |
| DtmfQueue.StartsQueue | impl-ril/ril_call.c:907-949 | every tone started is queued in order, also one the modem refuses |
| DtmfQueue.StopsTakeOldest | impl-ril/ril_call.c:951-994 | every stop takes exactly the oldest tone, whatever the modem answers |
| DtmfQueue.AnswerMeans | impl-ril/ril_call.c:921-949 | success needs both commands; error 22 is an invalid modem state, everything else a generic failure |
| DtmfQueue.CallsEmpty | impl-ril/ril_call.c:205-209 | the queue is emptied exactly when a first call begins and on a modem reset |
| DtmfQueue.Player.InitDtmfList | impl-ril/ril_call.c:161-171 | queue emptied on the heap |
| DtmfQueue.Player.RequestDtmfStart | impl-ril/ril_call.c:907-949 | the tone is queued before the modem is asked and stays queued if it refuses |
| DtmfQueue.Player.RequestDtmfStop | impl-ril/ril_call.c:951-994 | the oldest tone leaves whatever the modem answers; an empty queue fails the request |
| DtmfQueue.Player.ProcessCalls | impl-ril/ril_call.c:205-209 | the queue is emptied when a first call begins |
| DtmfQueue.Player.OnModemResetCall | impl-ril/ril_call.c:98-115 | call count and queue cleared |
| OperatorList.AddRefines | impl-ril/ril_network.c:1418-1459 | adding never overwrites and keeps PLMNs pairwise distinct |
| OperatorList.UpdateRefines | impl-ril/ril_network.c:4013-4057 | a lookup after a successful update gives the updated name, a failed one changes nothing, other PLMNs keep theirs |
| OperatorList.DropRefines | impl-ril/ril_network.c:4026-4040 | unlinking removes exactly the entry of that PLMN |
| OperatorList.RunRefinesMap | impl-ril/ril_network.c:1389-1459 | over whole runs the list is a finite map from PLMN to the first added or last updated name |
| OperatorList.Cache.GetOperatorName | impl-ril/ril_network.c:1389-1416 | walk over the ring: the entry of that PLMN or none |
| OperatorList.Cache.AddToOperatorInfoList | impl-ril/ril_network.c:1418-1459 | heap form of adding |
| OperatorList.Cache.RequestUpdateOperatorName | impl-ril/ril_network.c:4013-4057 | heap form of updating |
| BitCodec.ConvertUnsignedCharToBinary | impl-ril/ril_sms.c:810-817 | writes the low bits of a value, most significant first, and nothing else |
| BitCodec.ConvertBinaryToUnsignedChar | impl-ril/ril_sms.c:819-828 | reads back the value of up to eight bits |
| BitCodec.ValueOfBits | impl-ril/ril_sms.c:810-828 | reading undoes writing for values that fit |
| BitCodec.BitsOfValue | impl-ril/ril_sms.c:810-828 | writing undoes reading |
| BitCodec.UnpackPack | impl-ril/ril_sms.c:1052-1054 | bits to bytes and back |
| BitCodec.UnhexHex | impl-ril/ril_sms.c:1097-1098 | hexadecimal text to bytes undoes printing |
| BitCodec.NibblesArePacked | impl-ril/ril_sms.c:898-906 | printing four bits at a time is printing the packed bytes |
| CdmaSms.AddressRoundTrip | impl-ril/ril_sms.c:1046-1087 | an encoded address is read back with every transmitted field, for both digit modes and every digit list whose address fits 128 bits |
| CdmaSms.RoundTrip | impl-ril/ril_sms.c:831-1147 | for the format that CdmaFormat states, decoding one extra 00 byte and the encoded message gives back teleservice id, service category when present, bearer data and every transmitted address field (3GPP2 C.S0015-B, section 3.4.3.3) |
| CdmaSms.ParseFlatten | impl-ril/ril_sms.c:1090-1147 | the decoder's scan visits exactly the encoded parameters in order |
| CdmaPdu.ConvertCdmaSmsMsgToPdu | impl-ril/ril_sms.c:831-924 | the encoder fills its character buffer with exactly the encoded message, whose bytes CdmaFormat.MessageFormat states |
| CdmaPdu.BuildAddressBits | impl-ril/ril_sms.c:856-888 | the address bits in the 128-bit buffer, padded to whole bytes, never past its end |
| CdmaPdu.DecodeCdmaSmsAddress | impl-ril/ril_sms.c:1046-1087 | bit-buffer decoder equals the specified reading |
| CdmaPdu.BuildCdmaSmsMessage | impl-ril/ril_sms.c:1090-1147 | scanning loop equals the specified decoding, whose parameters CdmaFormat.ParameterFormat states |
| CdmaPdu.EncodedIsReadable | impl-ril/ril_sms.c:831-1147 | the encoder's own text meets the decoder's precondition |
| CdmaFormat.MessageFormat | impl-ril/ril_sms.c:831-924 | the encoded bytes: 00, 00 02 and the teleservice, perhaps 01 02 and the category, 04 with length and address, 06 01 00, 08 with length and data (3GPP2 C.S0015-B, section 3.4) |
| CdmaFormat.SendableFormat | impl-ril/ril_sms.c:831-888 | what the encoder takes: numbers of 16 bits, data of up to 255 bytes, at most 36 digits and 128 address bits |
| CdmaFormat.ReadableLength | impl-ril/ril_sms.c:1090-1147 | every message of up to 3839 bytes is read from the buffer of 4096 |
| CdmaFormat.AddressFormat | impl-ril/ril_sms.c:856-888 | the address bit by bit: modes, type and plan for 8-bit digits, count, digits of 4 or 8 bits, zeros up to a whole byte |
| CdmaFormat.BitOrder | impl-ril/ril_sms.c:810-817 | bits are sent most significant first |
| CdmaFormat.ByteFormat | impl-ril/ril_sms.c:898-906 | the packed byte k is the bits 8k to 8k + 7 |
| CdmaFormat.TextFormat | impl-ril/ril_sms.c:898-916 | two lower-case digits for every byte, the high half first |
| CdmaFormat.ParameterFormat | impl-ril/ril_sms.c:1104-1146 | a received parameter 00, 01, 02, 04 or 08 sets exactly its own field, if its length fits; every other one is skipped |
| CdmaFormat.AddressLength | impl-ril/ril_sms.c:1046-1087 | when a received address is long enough for its digits, at most 36 |
| CdmaFormat.AddressRead | impl-ril/ril_sms.c:1046-1087 | every field and digit of a received address is the bits at its place; what is not transmitted stays |
| BroadcastConfig.RoundTrip | impl-ril/ril_sms.c:522-599 | for every non-empty list of ids in 0..65535, the get handler reads the printed parameters back as the same id and scheme ranges, single ids without a dash included (3GPP TS 27.005, section 3.3.4) |
| BroadcastConfig.SelectedComesBackInverted | impl-ril/ril_sms.c:384-460 | the first entry's selected flag comes back negated |
| BroadcastConfig.PrintedIds | impl-ril/ril_sms.c:339-366 | for ids that fit, the channel text is one quoted comma-separated list |
| BroadcastConfig.PrintedSchemes | impl-ril/ril_sms.c:339-366 | for ids that fit, so is the scheme text |
| BroadcastConfig.CommandFormat | impl-ril/ril_sms.c:384-460 | for ids that fit, the whole command text; mode 0 if the first entry is selected |
| BroadcastConfig.NothingFits | impl-ril/ril_sms.c:339-460 | ids out of range are printed as nothing, so a list of none that fit is two empty pairs of quotes |
| BroadcastConfig.RangeRoundTrip | impl-ril/ril_sms.c:551-588 | one printed range is read back |
| BroadcastConfig.JoinShape | impl-ril/ril_sms.c:551-588 | a list of n entries has n - 1 commas and no quotes, so the handler allocates exactly n entries |
| BroadcastConfig.ConfigData | impl-ril/ril_sms.c:339-366 | one number with its mark; nothing for a number out of range |
| BroadcastConfig.SetSmsBroadcastConfig | impl-ril/ril_sms.c:379-460 | loop building the command in place |
| BroadcastConfig.GetSmsBroadcastConfig | impl-ril/ril_sms.c:522-599 | the get handler with its comma count and entry loop, failures included |
| AtTok.PlainField | impl-ril/common/at_tok.c:66-82 | a plain field is read whole, with or without fields after it |
| AtTok.QuotedField | impl-ril/common/at_tok.c:66-82 | a quoted field is read without its quotes, commas inside it included |
| AtTok.FindSep | impl-ril/common/at_tok.c:27-44 | splitting at the first separator |
| WarningSegments.EveryMessage | impl-ril/ril_sms.c:1481-1564 | for every sequence of messages, each with its segments in any order, exactly those of fewer than ten segments are handed on, whole and in turn, and the handler is back in its initial state |
| WarningSegments.AnyOrderDelivers | impl-ril/ril_sms.c:1523-1564 | every arrival order of segments 1..N hands on exactly data 1 + ... + data N |
| WarningSegments.BatchDelivers | impl-ril/ril_sms.c:1523-1564 | N reports of one message always end in the initial state, repeated ids included, with the text of the filled slots |
| WarningSegments.WholeIffEachOnce | impl-ril/ril_sms.c:1523-1541 | the text misses no segment if and only if no segment came twice |
| WarningSegments.LongBatchDropped | impl-ril/ril_sms.c:1516-1522 | a message of ten segments or more is dropped and leaves no trace |
| WarningSegments.RunFits | impl-ril/ril_sms.c:1528-1540 | in every run from the initial state the joined text fits in the buffer sized by the counted length, with repeated segments too |
| WarningSegments.StepFits | impl-ril/ril_sms.c:1528-1540 | one report keeps this |
| WarningSegments.ReportDecides | impl-ril/ril_sms.c:1516-1556 | which report is stored, which one hands the message on, and that a first report with a negative total is ignored |
| WarningSegments.Reassembly.Handle | impl-ril/ril_sms.c:1481-1564 | the handler on its static variables equals the specified step |
| WarningSegments.ConcatPages | impl-ril/ril_sms.c:1534-1540 | loop joining the filled slots in order |
| ApduChunks.PayloadCovered | impl-ril/ril_se.c:116-152 | for every APDU of at least 262 bytes with byte 4 zero, the payloads of all commands join to exactly the bytes from the eighth on |
| ApduChunks.DeclaredLength | impl-ril/ril_se.c:116-152 | a command declares the length of its text if and only if it is the last; a full chunk declares 8 characters more than it carries |
| ApduChunks.SentWhole | impl-ril/ril_se.c:153-159 | an APDU that is neither short nor long is sent whole |
| ApduChunks.LongFormat | impl-ril/ril_se.c:116-152 | every full block of a long APDU is sent as FF and its 255 bytes, declared as 520 characters |
| ApduChunks.RestFormat | impl-ril/ril_se.c:116-152 | the rest is sent after the first four bytes and its own length, with its true length declared |
| ApduChunks.ShortFormat | impl-ril/ril_se.c:111-115 | seven bytes without data: the first five are sent |
| ApduChunks.PlainFormat | impl-ril/ril_se.c:153-159 | any other APDU is sent as it is |
| ApduChunks.Transmit | impl-ril/ril_se.c:111-159 | the three cases compute the specified commands |
| ApduChunks.TransmitLong | impl-ril/ril_se.c:116-152 | nested loops over blocks and bytes |
| RadioAccess.AdjustedIsClosure | impl-ril/ril_network.c:2658-2679 | the adjusted mask is the least mask around the given one that has all or none of each group's bits |
| RadioAccess.AdjustedIdempotent | impl-ril/ril_network.c:2658-2679 | adjusting twice is adjusting once; a mask is unchanged if and only if it is closed |
| RadioAccess.AdjustedBits | impl-ril/ril_network.c:2658-2679 | each of the six groups, in numbers, is completed exactly if one of its bits is set |
| RadioAccess.OtherBits | impl-ril/ril_network.c:2658-2679 | all other bits stay |
| RadioAccess.MaskTable | impl-ril/ril_network.c:2575-2656 | the mask of every mode in numbers |
| RadioAccess.NoModeIsZero | impl-ril/ril_network.c:2681-2761 | a mask without a mode becomes mode 0 |
| RadioAccess.MaskRoundTrip | impl-ril/ril_network.c:2681-2761 | mask to mode to mask gives the adjusted mask if it has a mode, GSM with WCDMA otherwise |
| RadioAccess.ModeRoundTrip | impl-ril/ril_network.c:2575-2656 | mode to mask to mode is the identity exactly on 0 to 33 without GSM_UMTS |

## Left out

- AT transport, sockets, interface configuration, properties other than the two that are saved and reloaded, delays and logging: environment.
- The timer queue, the asynchronous registry and hexadecimal conversion of received PDUs are not part of this model beyond what they must do: serials are fresh and positive, a registered entry is taken at most once, text is read two digits at a time.
- The handlers of `NrHoldOff`, `WorkMode` and the data requests are atomic steps; only `TestModeProtocol` interleaves statements.
- TestModeProtocol.ExactlyOnce: assumes that a rejected command produces no indication and that the registry's timeout does not fire while its command is still being answered; `LateRejection.LateRejectionRun` shows what happens otherwise.
- ApplyBarrier.EveryPassUsesAsks: only runs in which APPLY requests take turns inside the barrier, because the code does not synchronise them; `StepAccounted` gives the exact condition. An ask that finds its SIM's flag already set counts as the same ask.
- PdpRuns.RunHolds: only runs without a fallback success, because of the slot used after release; `PdpHolders.SetupCounts` shows that this is exactly the excluded case.
- PdpRuns.RunRests: only runs in which no id is given to an idle slot; `PdpRuns.StepHolds` shows that this is exactly what ends it.
- PdpRuns.RunBalances: forced releases (radio off, modem reset, context ended with holders) drop holders, and a partner released with its primary loses its own; `StepBalances` gives the exact condition.
- DataSwitch.RunSettles: modem reset and contexts ended by the network are not steps of the two-SIM model; they release slots without switching back.
- PdpManager.Manager.DeactivateDataConnection: for ids above 6 the code also reads and may lower a count outside the SIM's row before it answers that the context is down; that access is not modelled.
- The boots variant of pairing and of the network-reject fallback (`impl-ril/ril_data.c:959-1029`).
- APN and protocol matching: the outcome of each comparison is an input of the model.
- The open and closed marks of BIP channels, beyond what decides a release.
- The check, right after a slot is allocated for a setup, that its context id is unassigned: it always is.
- EthTable.CleanRefines: cid 6 is never cleaned by the code, so interfaces can leak and nothing is claimed about leaks; the table is not tied to the setups that use it.
- Delivery of NR configuration reports: the code drops some of them.
- Parsing of the indications that drive `NrHoldOff`; the lines of the status query are modelled by how far they could be parsed.
- CdmaSms.RoundTrip: addresses whose bits do not fit the 128-bit buffer are outside the encoder's own limits.
- CdmaPdu.DecodeCdmaSmsAddress: an address parameter shorter than the digits it announces makes the code read past its bit buffer, which has no defined result.
- CdmaPdu.BuildCdmaSmsMessage: received messages whose address parameter is shorter than the digits it announces, or longer than 36 digits, read or write outside the decoder's buffers and are not modelled.
- BroadcastConfig.RoundTrip: ids outside 0..65535 are printed as nothing (`ConfigData`), which cannot be read back; the handler's fixed-size buffers and 32-bit overflow of the number reader are not modelled.
- BroadcastConfig.SetSmsBroadcastConfig: for an empty list the code prints from buffers of size 0 that it never wrote, so the command text is undefined.
- The AT+SPPWS commands that follow an enabled broadcast configuration: a finite choice.
- WarningSegments.Reassembly.Handle: segment ids below 1 and mixtures of messages that index outside the allocated slots; the conversion of the joined text to bytes.
- ApduChunks.Transmit: size limits of the command buffers, and the responses with their follow-up commands.
- Reading `isEccNumber` repeatedly, signal strength, fail causes, request admission and NR switch bits: finite lookups or destructive parsing outside the components above.
- SAP sockets, the command line, thermal control, STK and the libril command tables.
