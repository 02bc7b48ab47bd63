# Verified model of the relay agent

The relay agent turns a desired set of port mappings into one nftables table, and retires removed
mappings safely: the connections of a removed mapping are fenced off, deleted from conntrack, and its
id and flow mark are never used again. This project models that protocol in Dafny and proves what it
keeps over whole runs, including crashes, failed calls and reboots.

`dafny verify dfyconfig.toml` checks everything.

## Layout

| files | what they hold |
|---|---|
| `Values`, `Text` | machine words, digests as perfect hashes, sorting, decimal text |
| `SourcePolicy`, `Snapshots` | CIDR allowlists and masks; validated snapshots, tuple hash, desired hash |
| `Ledgers`, `LedgerProofs`, `LedgerRuns`, `LedgerValidation`, `LedgerAcceptance`, `RetirementLedger` | the retirement ledger as a value, what every step keeps, whole runs, the final validation, exactly which snapshots are accepted and what they lead to, and the object with its in-place compactions |
| `Nft`, `Machine`, `NatChain`, `ForwardChain`, `GuardIsolation`, `Readback`, `Naming` | the rule compiler, a register machine that runs compiled rules, the meaning of the chains, the readback checker, counter names |
| `Counters`, `Conntrack` | counter folding and report rotation; connections of a retirement |
| `AgentModel`, `AgentPromises`, `ReportMeaning`, `AgentCounters`, `AgentReports`, `Agent` | the convergence loop as functions that yield memory, counters and ordered effects; what one step promises the next; what the platform may conclude from a report; its steps as operations on the counters and what the reports of a process then tell; and the loop as an object proved to do exactly that |
| `AgentSafety`, `AgentSteps`, `AgentTraffic`, `AgentRuns`, `AgentFiles`, `AgentBoot`, `AgentHistory`, `AgentLifecycle`, `AgentEvidence`, `AgentDurability`, `AgentMemory`, `AgentLevel`, `AgentBehind`, `AgentWitnesses` | invariants at every crash point, traffic between effects, whole runs, the files alone, boot decisions, reports, the life of a retirement and the evidence behind it, what each step stores, the ledger in memory from life to life, the stored ledger while memory is not behind it, memory behind disk, concrete counterexamples |
| `EndToEnd`, `MappingChain`, `AgentPackets` | from a snapshot to the fate of a packet under any later ledger; what one mapping's own fields do to a packet; the fate of packets under any table a run of the agent installs |

## How the agent is modelled

A step of the agent (a boot or a poll cycle) is a function from its memory and the answers of every
outside call to its new memory and an ordered list of atomic effects: a ledger or snapshot rename, a
netlink batch, a conntrack deletion. Each call may take effect, not take effect, or take effect and
still report failure. A crash keeps a prefix of the effects and loses the memory. A run interleaves
boots, cycles, crashes after any effect and kills, with traffic and table wipes between any two effects. A retirement is
*sealed* once a durable ledger lists it as cleared; the main invariant says that no kernel rule stamps
a sealed mark and no connection of a sealed retirement exists, at every point of every run.

## Properties that fail, and exactly when

Each failing property has a run from a host on which the agent never ran, and the exact condition.

- Receipts after a re-assert. `ensureAsserted` re-applies the last applied snapshot under a ledger that
  may be newer, and then reports its retirements as cleared: `UnfaithfulAnswerBreaksReceipt`;
  `ReassertSealsIff` states exactly when these receipts are true. `ReceiptsAreFinal` and the invariants behind
  it hold in every run whose re-asserts meet that condition, and `TrustedIsSealed` shows that they do as long as
  "unchanged" is not answered below the managed generation high-water mark. Crash safety, the files, the
  ledger in memory, the evidence behind a receipt and the exact kernel are proved for every answer.
- The stored ledger. A ledger save that took effect but reported failure leaves memory behind disk (never the
  other way round: `MemoryEvolves`), and what is stored next may lower the generation (`UnsureSaveRegresses`),
  bind an id anew (`UnsureSaveRebinds`) or, with generation and ids intact, make a cleared retirement
  uncleared again (`UnsurePersistUnclears`). In every state of every run, some event takes the stored ledger
  back in any of these ways if and only if memory does not follow it, or was never armed and disk is past a
  first managed generation without mappings (`StoredLedgerCanStepBackIff`); it lowers a mark or gives up a binding
  if and only if memory does not follow in marks and bindings (`StoredBindingsCanStepBackIff`), which for an
  armed memory is to be behind in the generation (`BoundIffGeneration`); `StoredGenerationCanFallIff` and
  `StoredBindingCanChangeIff` do the same for a lower generation and for an id bound anew. The other halves over
  whole stretches are `DurableLifecycle` and `DurableNeverReuse`.
- The zero check before a compaction looks entries up by retirement id, while acceptance compares ids
  only with the entries that stay. A snapshot may therefore reuse the id of the retirement it compacts,
  and the check is skipped: `ReusedIdSkipsZeroCheck`, and `ZeroCheckCovers` for the condition.
- The exact kernel of a host never armed. A batch that commits but reports failure leaves the table ahead
  of memory: `OvertakenKernel`, and `CycleExactIff` for the condition.
- Isolation of the forward counters. They count by protocol and original port, without the mark and ahead
  of the fences: `RetiredTrafficIsMisattributed`, `ForwardCountersExact` for what they count, and
  `MeteredByEndpoint` for which connections a mapping meters.
- Exact counters. Traffic between the fold and the commit of a replace is lost, and nothing else while
  nothing fails: `CleanRunsLoseOnlyTheGap`; `ReportsAreHonest` states the exact shortfall in every run.
- The listing order of counters matters for names that an apply never creates: `ForeignNamesClash`.
- The fail-closed apply under an armed ledger (internal/agent/agent.go:125-129) is never reached: every
  error of `loadLedger` has already marked the ledger as lost. And the validation at the end of `Prepare`
  refuses only for the cap and for generation 0: `FinalValidationIsTheCap`.

## Model

| member | source | states |
|---|---|---|
| `SourcePolicy.Parse` | internal/sourcepolicy/policy.go:21-51 | succeeds exactly on canonical, distinct IPv4 prefixes within the cap, and returns them sorted and as a permutation |
| `SourcePolicy.PolicyIdentity` | internal/sourcepolicy/policy.go:44-49 | two accepted lists yield the same policy exactly when they hold the same prefixes in some order |
| `SourcePolicy.MaskDecidesContainment` | internal/nftctl/source_policy.go:17-33 | masking with the shifted netmask (also for lengths 0 and 32) and comparing decides whether a canonical prefix contains an address |
| `Snapshots.TupleHashInjective` | internal/snapshot/snapshot.go:93-98 | the newline-separated preimage loses nothing: valid tuples have equal hashes exactly when they are equal |
| `Snapshots.TupleLines` | internal/snapshot/snapshot.go:93-98 | what is hashed: id, protocol, public port, target address, target port and mark, each on its line |
| `Snapshots.Validate` | internal/snapshot/snapshot.go:171-321 | the loop with its growing seen-sets accepts exactly the declaratively valid snapshots, and blames the first mapping that does not fit |
| `Snapshots.ValidateRetirements` | internal/snapshot/snapshot.go:281-319 | accepts exactly the retirement lists whose every element fits the mappings and the earlier elements |
| `Snapshots.ValidIffWellFormed` | internal/snapshot/snapshot.go:171-323 | validation lets through exactly the snapshots of fine members with as many ids, endpoints and marks as mappings, and as many ids and marks as retirements, under the caps, whatever their order |
| `Snapshots.DesiredHashIdentifiesContent` | internal/snapshot/snapshot.go:100-117 | valid snapshots have the same desired hash exactly when they agree up to mapping order, retirement order and persistence stamp |
| `RetirementLedger.LedgerObject.Validate` | internal/retirement/ledger.go:70-103 | accepts exactly the ledgers with unique ids, marks and retirement ids below their high-water marks |
| `RetirementLedger.ValidateActive` | internal/retirement/ledger.go:77-86 | the first validation loop: the active epochs are in range and share no id or mark; returns the sets it saw |
| `RetirementLedger.ValidateEntries` | internal/retirement/ledger.go:87-95 | the second validation loop: entries carry their own tuple hash and clash with nothing |
| `RetirementLedger.CompactEntries` | internal/retirement/ledger.go:134-144 | in place over the array: keeps, in order, what the acknowledgement does not cover, and fails exactly on a covered entry that is not cleared |
| `RetirementLedger.FilterEpochs` | internal/retirement/ledger.go:213-219 | in place over the array: keeps, in order, the epochs that no entry retires |
| `RetirementLedger.IndexActive` | internal/retirement/ledger.go:146-149 | the map of active epochs finds exactly the active epochs by id |
| `RetirementLedger.AdmitMappings` | internal/retirement/ledger.go:156-177 | admits exactly the mappings that repeat their epoch or lie above both previous high-water marks, and raises both |
| `RetirementLedger.AbsorbRetirements` | internal/retirement/ledger.go:178-201 | adds exactly the unknown retirements of exact active epochs, and refuses changed or unfounded ones |
| `RetirementLedger.NothingDisappeared` | internal/retirement/ledger.go:202-212 | every active epoch is still listed or retired |
| `RetirementLedger.LedgerObject.Prepare` | internal/retirement/ledger.go:107-224 | returns the specified rejection or the specified next ledger in a new object; the receiver is unchanged |
| `LedgerValidation.FinalValidationIsTheCap` | internal/retirement/ledger.go:220-222 | for reachable ledgers and valid snapshots the final validation refuses what passed the other checks exactly when too many retirements would be outstanding or the generation is 0 |
| `RetirementLedger.LedgerObject.Acknowledge` | internal/retirement/ledger.go:130-145 | drops the acknowledged entries if all of them are cleared |
| `RetirementLedger.LedgerObject.Converge` | internal/retirement/ledger.go:146-219 | names the first failing stage, or reaches the specified marks, entries and active epochs |
| `RetirementLedger.LedgerObject.Retirements` | internal/retirement/ledger.go:225-231 | one fence per outstanding entry, in order |
| `RetirementLedger.LedgerObject.Clear` | internal/retirement/ledger.go:232-238 | marks exactly the listed retirements, in place |
| `RetirementLedger.LedgerObject.Unclear` | internal/agent/agent.go:271-275 | the rollback loop: exactly the listed entries become uncleared |
| `RetirementLedger.LedgerObject.ClearedEntries` | internal/retirement/ledger.go:239-247 | lists the cleared entries in order |
| `LedgerProofs.ClearedListIsExact` | internal/retirement/ledger.go:239-247 | that list holds every cleared entry as often as the ledger does, and nothing else |
| `LedgerProofs.PrepareKeeps` | internal/retirement/ledger.go:107-224 | every accepted snapshot keeps the ledger invariant and only moves the ledger forward |
| `LedgerProofs.ClearKeeps` | internal/retirement/ledger.go:232-238 | so does clearing any entries |
| `LedgerProofs.ActiveIsTheSnapshot` | internal/retirement/ledger.go:213-219 | the final filter never removes anything: the active epochs are those of the snapshot, in its order |
| `LedgerProofs.PrepareSettles` | internal/retirement/ledger.go:107-224 | after acceptance the ledger stands for exactly that snapshot |
| `LedgerProofs.SettledPrepare` | internal/retirement/ledger.go:107-224 | a snapshot the ledger stands for is accepted again and changes nothing but the order of the active epochs |
| `LedgerProofs.PrepareIdempotent` | internal/retirement/ledger.go:107-224 | preparing an accepted snapshot again, after any entries were cleared, succeeds and returns the same ledger |
| `LedgerAcceptance.AcceptedIff` | internal/retirement/ledger.go:107-223 | a managed snapshot is accepted if and only if its generation is timely, its acknowledgement is in range and covers only what was cleared, every mapping keeps its exact epoch or is above both previous marks, every retirement repeats an outstanding one or retires an exact active epoch above the previous mark, no active epoch is left out, and the cap is kept |
| `LedgerAcceptance.LegacyAcceptedIff` | internal/retirement/ledger.go:108-113 | a legacy snapshot is accepted exactly by a ledger that was never armed, which stays as it is |
| `LedgerAcceptance.AcceptanceIgnoresOrder` | internal/retirement/ledger.go:107-223 | snapshots with the same content are accepted alike, in whatever order they list it |
| `LedgerAcceptance.AcceptedLedger` | internal/retirement/ledger.go:114-223 | the ledger that acceptance leads to: the marks are the largest ever listed, the active epochs those of the snapshot, the entries those that stay and the new retirements, uncleared, each once |
| `LedgerAcceptance.MarksStayInOrder` | internal/retirement/ledger.go:107-223 | over every run acknowledgements never run ahead of retirements, nor retirements of the accepted generation |
| `LedgerProofs.ChangeDetectorComplete` | internal/agent/agent.go:406-406 | the nine compared fields agree exactly when the prepared ledger equals the current one up to the order of the active epochs |
| `LedgerProofs.OldEntryFate` | internal/retirement/ledger.go:134-145 | an entry leaves exactly when the acknowledgement covers it, and then it was cleared |
| `LedgerProofs.ActiveFate` | internal/retirement/ledger.go:202-219 | an active epoch stays active or becomes an uncleared entry; none is lost |
| `LedgerRuns.NeverReuse` | internal/retirement/ledger.go:117-177 | over every run all high-water marks and arming are monotone, an id has one mark and tuple for ever, and a mark one id |
| `LedgerRuns.NeverReturns` | internal/retirement/ledger.go:165-168 | an id that left the active set never returns |
| `LedgerRuns.LifecycleMovesForward` | internal/retirement/ledger.go:130-219 | unseen, active, outstanding, cleared, gone: no id of a run moves back |
| `LedgerRuns.Conservation` | internal/retirement/ledger.go:130-219 | an admitted epoch is held until exactly the step that compacts it, cleared and acknowledged |
| `LedgerRuns.GoneForGood` | internal/retirement/ledger.go:165-168 | an epoch that is no longer held is never held again |
| `LedgerRuns.ArmedStandsForASnapshot` | internal/retirement/ledger.go:117-129 | every armed ledger of a run stands for a valid snapshot of its own generation and content |
| `LedgerRuns.HeldOnce` | internal/retirement/ledger.go:77-95 | a held epoch is active or outstanding, never both |
| `NatChain.SourceDropMeaning` | internal/nftctl/source_policy.go:17-33 | the compiled allowlist rule drops a packet exactly when it selects the mapping and no prefix contains its source; the empty list drops every source |
| `NatChain.PerSourceMeaning` | internal/nftctl/nftctl.go:804-829 | the nested dynamic-set rule is the per-source guard for the packets that select the mapping, including the full set that lets a packet pass on, and does nothing to others |
| `NatChain.RateMeaning` | internal/nftctl/nftctl.go:787-797 | the compiled rate rule is the aggregate rate guard for the packets that select the mapping, and does nothing to others |
| `NatChain.ConnMeaning` | internal/nftctl/nftctl.go:787-797 | the compiled connection-limit rule is the connection guard for the packets that select the mapping, and does nothing to others |
| `NatChain.DnatMeaning` | internal/nftctl/nftctl.go:834-859 | the compiled DNAT rule stamps the mark, counts, and translates to the target for exactly the packets that select the mapping, and does nothing to others |
| `NatChain.NatChainMeaning` | internal/nftctl/nftctl.go:712-738 | for every packet, limiter behaviour and state the rendered chain means the simple decision: allowlist, per-source, rate, connection limit, DNAT |
| `NatChain.NatChainOrderIndependent` | internal/snapshot/snapshot.go:274-278 | with one mapping per protocol and port, reordering the mappings changes nothing for any packet |
| `MappingChain.MappingMeaning` | internal/nftctl/nftctl.go:95-135 | for a valid snapshot and a packet that enters for one of its mappings, the compiled chain drops it untouched when the mapping's allowlist does not admit the source; otherwise the limits that its own five overrides and the defaults grant decide, in order, and then it goes to the mapping's own target under its own mark |
| `MappingChain.LimitersExact` | internal/nftctl/nftctl.go:712-739 | the compiled chain holds exactly the granted limiters: none for an explicit 0, one with just its rate, burst or count for another explicit value, one with the default for an absent one |
| `MappingChain.DisabledIsSilent` | internal/nftctl/nftctl.go:95-112 | a disabled guard counts no drop for any packet |
| `MappingChain.OverridesAreMeant` | internal/snapshot/snapshot.go:162-170 | in a valid snapshot every burst override belongs to a limiter that is there, and overrides stay under the cap |
| `MappingChain.TranslationsAreConfined` | internal/snapshot/snapshot.go:171-323 | a translated packet came in on a port inside the band, from a source its mapping admits, and goes to a target inside the target network |
| `ForwardChain.FencesMeaning` | internal/nftctl/nftctl.go:861-886 | the fences drop a packet exactly when an outstanding retirement's mark, port and protocol match a translated flow crossing the interface |
| `ForwardChain.ForwardMeaning` | internal/nftctl/nftctl.go:894-940 | the whole forward chain meters the active mappings and drops exactly the fenced flows |
| `MappingChain.MappingIsMetered` | internal/nftctl/nftctl.go:894-942 | for a valid snapshot the forward chain counts, for each mapping and direction, exactly the translated packets bound for its public port that cross the public interface |
| `MappingChain.FencesExact` | internal/nftctl/nftctl.go:861-880 | the fences drop exactly the translated packets across the public interface with the mark, protocol and original port of a retirement |
| `ForwardChain.QuarantineMeaning` | internal/nftctl/nftctl.go:321-346 | the quarantine table drops exactly the translated flows that enter or leave the public interface |
| `GuardIsolation.DeniedSourceTouchesNothing` | internal/nftctl/nftctl.go:700-738 | a source-denied packet changes no limiter, no counter and no mark |
| `GuardIsolation.EarlierDropTouchesLess` | internal/nftctl/nftctl.go:700-738 | a per-source drop leaves the aggregate bucket and the connection list alone, an aggregate drop the connection list |
| `GuardIsolation.TrafficIsIsolated` | internal/nftctl/nftctl.go:712-738 | over every packet sequence through both chains, a mapping's limiters and its four prerouting counters depend only on the new connections that select it |
| `GuardIsolation.ForwardCountersExact` | internal/nftctl/nftctl.go:894-942 | over every packet sequence, a mapping's "in" and "out" counters grow by exactly the crossings of translated flows with its protocol and original port, whoever created them and whether or not a fence then drops them |
| `GuardIsolation.VerdictIsIsolated` | internal/nftctl/nftctl.go:712-738 | the verdict on a new connection of a mapping depends only on its own earlier ones |
| `Readback.ManagedExprsEqual` | internal/nftctl/nftctl.go:568-648 | the comparison loop decides the specified equality, through nested dynamic sets |
| `Readback.EqualIffNormal` | internal/nftctl/nftctl.go:568-648 | against an emitted expression the comparison accepts exactly the spellings with the same normal form |
| `Readback.EchoIff` | internal/nftctl/nftctl.go:568-648 | of a translation the kernel may repeat the lower registers as the upper ones and nothing else; only the values of anonymous counters do not matter |
| `Readback.ValidateOwnedChains` | internal/nftctl/nftctl.go:522-544 | accepts exactly the two owned base chains with their hooks, priorities and policies |
| `Readback.ValidateManagedReadback` | internal/nftctl/nftctl.go:474-520 | accepts exactly the tables that conform in chains, tags, expressions and sets |
| `Readback.ReadbackSound` | internal/nftctl/nftctl.go:474-520 | an accepted table treats every packet as the desired chains do |
| `Readback.TagAt` | internal/nftctl/nftctl.go:295-303 | a rule carries the tag of the mapping counted so far exactly when it ends in NAT, and the index stays in range |
| `Readback.AssembleNat` | internal/nftctl/nftctl.go:295-303 | the tag loop writes exactly the expected tags |
| `Readback.VerifyManaged` | internal/nftctl/nftctl.go:419-472 | readback check and the three tag loops together accept exactly the conforming tables: the loops never refuse what the check accepted |
| `Readback.ApplyManaged` | internal/nftctl/nftctl.go:245-319 | an apply writes the table of the desired state, which always conforms, so the checker accepts it |
| `MappingChain.TagIsTheEpoch` | internal/nftctl/nftctl.go:410-413 | the tag of a mapping's rule carries the hash under which the ledger holds its epoch |
| `MappingChain.MetersHaveSets` | internal/nftctl/nftctl.go:204-218 | in an accepted table every limit per source has its set, with the rule's own timeout and room for 4096 sources |
| `Naming.CounterNameRoundTrip` | internal/nftctl/nftctl.go:161-186 | parsing a printed counter name returns its id and suffix |
| `Naming.CounterNameInjective` | internal/nftctl/nftctl.go:161-163 | different pairs have different names |
| `Naming.ReadCounters` | internal/nftctl/nftctl.go:655-691 | the loop over the listed objects yields one record per mapping whose names parse, with the last reading under each name, and ignores the rest |
| `Naming.ReadoutOfApplied` | internal/nftctl/nftctl.go:286-288 | reading back the six counters that an apply creates per mapping, listed in any order and among any names that do not parse, returns exactly these mappings, each with what was counted under its own names |
| `Naming.ForeignNamesClash` | internal/nftctl/nftctl.go:167-186 | distinct names alone would not do: two foreign names, one with a leading zero, parse alike, and then the listing order matters |
| `Counters.CounterState.Fold` | internal/agent/counters.go:37-64 | every read mapping is folded, every other one is untouched |
| `Counters.CounterState.MarkReset` | internal/agent/counters.go:71-75 | every baseline becomes zero, every total stays |
| `Counters.CounterState.Prune` | internal/agent/counters.go:88-94 | exactly the mappings in the applied set stay |
| `Counters.CounterState.Snapshot` | internal/agent/counters.go:115-161 | the report is ascending, without duplicates, at most the cap, holds the ids next in rotation with their totals, and moves the cursor to the first id left out |
| `Counters.ObjectFollowsAccounts` | internal/agent/counters.go:37-94 | for every field of every mapping, over any sequence of folds, resets, prunes, replaces and traffic, the object's totals and baselines are those of its account, and the account knows exactly what happened |
| `Counters.RotationNeverStarves` | internal/agent/counters.go:105-140 | with n live ids every surviving id appears in one of any ceil(n / cap) consecutive reports, even if the cursor's id was pruned |
| `Counters.AccountsBalance` | internal/agent/counters.go:55-75 | in every orderly history, with failed reads, wipes, prunes and commits reported as failures, totals never exceed what happened, and fall short by exactly the unread value and the losses of the single events: what a replace finds unread, a stale baseline that the counter has climbed past, and what a prune drops |
| `Counters.TotalsNeverDecrease` | internal/agent/counters.go:55-64 | reported values never decrease between prunes |
| `Counters.CleanRunsLoseOnlyTheGap` | internal/agent/agent.go:423-451 | when nothing fails, with traffic at every point of a replace, exactly the traffic between the fold and the commit is lost; reported plus unread is everything if and only if there was none |
| `Conntrack.ConnectionTable.Find` | internal/conntrackctl/conntrack.go:47-59 | finds exactly the flows of the retirement, each once |
| `Conntrack.ConnectionTable.Clear` | internal/conntrackctl/conntrack.go:60-80 | succeeds exactly when every call does, and then leaves no flow of the retirement and touches no other; failure touches no other either |
| `Conntrack.ConnectionTable.Zero` | internal/conntrackctl/conntrack.go:81-92 | succeeds exactly when the calls do and no flow of the retirement exists |
| `Agents.Host.StoreLedger` | internal/retirement/ledger.go:248-283 | an invalid ledger is never stored; otherwise the file is replaced at once, even when failure is reported |
| `Agents.Agent.ClearConnections` | internal/agent/agent.go:259-268 | clears entry by entry until one fails, as specified |
| `Agents.Agent.Apply` | internal/agent/agent.go:240-279 | install, verify, clear, store; result, ledger and host are those of the model, and a failed save is rolled back to the very same ledger |
| `Agents.Restored` | internal/agent/agent.go:270-276 | unclearing what was just cleared restores every entry, because ids are unique and all of them were uncleared |
| `Agents.Agent.CheckZero` | internal/agent/agent.go:392-405 | the nested loops decide the specified zero check; success means that no entry whose id the next ledger drops has a connection |
| `Agents.Agent.StoreFiles` | internal/agent/agent.go:427-437 | under an armed ledger the ledger is stored first, then its snapshot, and memory moves on with the ledger |
| `Agents.Agent.Finish` | internal/agent/agent.go:438-464 | apply, the late snapshot of a legacy convergence, the generation, and counters reset and pruned to the applied set, or nothing but the error |
| `Agents.Agent.Converge` | internal/agent/agent.go:423-465 | fold, files, kernel, notes: memory, host, the advance flag and the counter totals are those of the model |
| `Agents.Agent.Receive` | internal/agent/agent.go:377-465 | validate, prepare, check, compare, converge: memory, host, the advance flag and the counter totals are those of the model |
| `Agents.Agent.FoldCounters` | internal/agent/agent.go:531-538 | a read merges into the totals, a failed one leaves them |
| `Agents.Agent.MakeReport` | internal/agent/agent.go:325-346 | capability, frozen generation, error, ledger id, four high-water marks, one receipt per cleared entry, and the counter rows next in rotation |
| `Agents.Agent.EnsureQuarantine` | internal/agent/agent.go:229-238 | asserts the quarantine table and changes nothing else |
| `Agents.Agent.EnsureAsserted` | internal/agent/agent.go:471-506 | re-applies the last applied snapshot only when the table is not known to be present, and resets the counter baselines exactly after success |
| `Agents.Agent.RetryBootConverge` | internal/agent/agent.go:515-526 | folds, re-attempts the empty set, keeps generation 0 until it succeeds and then resets the baselines |
| `Agents.Agent.Cycle` | internal/agent/agent.go:321-465 | one cycle of the object is one cycle of the model, counters included, and its report describes the state before it with freshly folded totals |
| `Agents.Agent.RunOnce` | internal/agent/agent.go:311-315 | one follow-up exactly after an advance, whose report carries the new state; the counter totals are those of the one or two cycles, and each report carries its rows in rotation where the one before it ended |
| `Agents.Agent.ProvesLegacy` | internal/agent/agent.go:168-202 | decides whether disk and kernel speak of no managed state |
| `Agents.Agent.ReadLedger` | internal/agent/agent.go:166-212 | the stored ledger, or a new one that could be stored on a provably legacy host |
| `Agents.Agent.LoadLedger` | internal/agent/agent.go:165-227 | holds the ledger against the persisted snapshot; every failure loses the ledger |
| `Agents.Agent.BootReapply` | internal/agent/agent.go:119-163 | boot of the object is boot of the model, counters included |
| `AgentCounters.CycleIsOperations` | internal/agent/agent.go:321-465 | what a cycle does to the counter totals is exactly its list of operations: its one or two folds, and after a successful apply the reset and, for a convergence, the prune to the applied set |
| `AgentCounters.BootIsOperations` | internal/agent/agent.go:119-163 | so is what a boot does to them |
| `AgentCounters.CycleReplaces` | internal/agent/agent.go:499-505 | a cycle that resets the baselines has replaced the table |
| `AgentCounters.BootReplaces` | internal/agent/agent.go:136-160 | so has a boot that resets them |
| `AgentCounters.CycleInOrder` | internal/agent/agent.go:423-459 | after any operations in order those of a cycle go on in order: baselines and totals are forgotten only after a replace with no read in between |
| `AgentCounters.InOrderIsOrderly` | internal/agent/counters.go:66-94 | operations in order give every counter of every mapping an orderly history |
| `AgentCounters.NothingReadIsLost` | internal/agent/agent.go:423-426 | when a received snapshot leads to a replace, or a failed boot is retried, what the kernel showed right before is in the totals afterwards |
| `AgentCounters.BaselinesRestart` | internal/agent/agent.go:451-459 | after an apply that returned success every baseline is zero, and after a convergence only applied mappings are left |
| `AgentCounters.LeftoversAreFolded` | internal/agent/agent.go:133-160 | a boot folds what an earlier process left in the kernel before it replaces the table |
| `AgentReports.LifeIsOperations` | internal/agent/agent.go:119-526 | over every life of a process in every run its counter totals are exactly its operations, and these are in order |
| `AgentReports.ReportsAreHonest` | internal/agent/agent.go:324-334 | in every run, for every report of a running process, every row and every counter: the value never exceeds what happened, and falls short of it by exactly what is still unread and the losses of the single events |
| `AgentReports.ReportsNeverFall` | internal/agent/agent.go:455-459 | from one report of a process to any later one no counter of a mapping falls unless a convergence in between dropped the mapping |
| `ReportMeaning.ReportedMarksBoundMappings` | internal/agent/agent.go:335-341 | one more mapping is accepted if and only if its id and its mark are above the reported pair |
| `ReportMeaning.ReportedMarkBoundsAcknowledgement` | internal/agent/agent.go:335-341 | an acknowledgement is accepted if and only if it does not fall back, is not above the reported retirement high-water mark and covers only what was cleared |
| `ReportMeaning.ReportedMarkBoundsRetirement` | internal/agent/agent.go:335-341 | retiring a mapping under a new id is accepted if and only if its generation is above that mark |
| `ReportMeaning.ReportedGenerationIsLowest` | internal/agent/agent.go:335-341 | the same content is accepted at a generation if and only if it is not below the reported one |
| `ReportMeaning.ReportDecidesAcceptance` | internal/agent/agent.go:335-341 | with the reported marks in place of those of the ledger, exactly the same managed snapshots are accepted |
| `AgentModel.PersistedUsableIff` | internal/snapshot/snapshot.go:411-438 | a stored copy is used exactly when it can be read, is valid, carries a stamp, and is neither from the future beyond the tolerance nor older than the limit |
| `AgentSafety.ApplySafe` | internal/agent/agent.go:240-279 | an apply of rules that carry no sealed and no outstanding mark keeps every invariant after each of its effects, touches no file but the ledger and only clears entries |
| `AgentSteps.FitsNext` | internal/agent/agent.go:427-437 | a snapshot on disk or in memory that fits a ledger fits every successor: it is its own, older, or legacy |
| `AgentFiles.EveryStateHasGoodFiles` | internal/agent/agent.go:119-526 | in every run, whatever the platform answers, the files are readable and valid, and the snapshot on disk fits the ledger on disk and the one in memory |
| `AgentSteps.CycleSafe` | internal/agent/agent.go:321-465 | every cycle whose re-assert, if it makes one, installs no rule with the mark of an outstanding retirement keeps all invariants wherever a crash cuts it |
| `AgentSteps.BootSafe` | internal/agent/agent.go:119-163 | so does every boot |
| `AgentTraffic.StaysCalm` | internal/agent/agent.go:253-278 | effects in the agent's order keep sealed retirements without rule and connection, whatever connections come and go and whenever the table is wiped between two of them |
| `AgentTraffic.CycleRobust` | internal/agent/agent.go:321-465 | every cycle has that order: a ledger lists a retirement as cleared only after a table that does not stamp it was installed and its connections were deleted |
| `AgentTraffic.BootRobust` | internal/agent/agent.go:119-163 | so has every boot |
| `AgentTraffic.SafeAmongTraffic` | internal/agent/agent.go:240-279 | a step cut anywhere, among any traffic and wipes, leaves a good host and the files of the undisturbed step |
| `AgentRuns.EveryStateIsSafe` | internal/agent/agent.go:119-526 | in every state of a run whose re-asserts meet the exact condition of ReassertSealsIff the files are consistent and sealed retirements have neither rule nor connection |
| `AgentRuns.ReceiptsAreFinal` | internal/agent/agent.go:342-345 | in every run whose re-asserts meet that condition a receipt once sent is true for ever: no connection, no stamping rule and no active epoch of that mark, through crashes, reboots, wipes and failed calls |
| `AgentRuns.TrustedIsSealed` | internal/agent/agent.go:495-506 | the condition is met in every run in which "unchanged" is not answered below the managed generation high-water mark |
| `AgentBoot.BelongsIffAccepted` | internal/agent/agent.go:214-225 | boot accepts the persisted snapshot exactly when it is the ledger's own, or both are legacy |
| `AgentBoot.BootDecides` | internal/agent/agent.go:119-227 | boot restores, empties or quarantines, and quarantines exactly when the ledger is unavailable or the usable snapshot is not its own |
| `AgentBoot.CrashSafety` | internal/agent/agent.go:119-163 | after a crash anywhere in any run, whatever the platform answered, boot takes one of these three ways, always behind every fence, and never restores a snapshot older than the durable ledger |
| `AgentBoot.CrashPointDecides` | internal/agent/agent.go:427-445 | in a cycle to a newer generation, a crash quarantines exactly between the two file writes, while the old snapshot is usable |
| `AgentHistory.QuarantineIsAbsorbing` | internal/agent/agent.go:321-354 | once the ledger is lost no rules are applied, after every cycle the quarantine stands unless wiped, the capability is not advertised and the generation does not move |
| `AgentHistory.CycleFreezes` | internal/agent/agent.go:441-454 | the generation moves only with a successful apply, and a failed apply leaves the ledger it was given |
| `AgentHistory.GenerationIsFrozen` | internal/agent/agent.go:64-68 | every report of a process carries the generation of its latest apply that returned success, 0 without one |
| `AgentHistory.CycleExactIff` | internal/agent/agent.go:438-454 | one cycle from an exact table leaves it exact, unless a due legacy snapshot with another plan commits but reports failure; and exactly then it does not |
| `AgentHistory.UnarmedKernelIsExact` | internal/agent/agent.go:240-248 | in every run, whatever the platform answers, the table of a host never armed is exactly the plan of the last applied snapshot unless wiped from outside, as long as no cycle is of that one kind |
| `AgentLifecycle.ClearedOnlyAfter` | internal/agent/agent.go:253-278 | an entry becomes cleared in an apply only after its fence was installed, the table read back conforms, its connections were deleted, and the ledger stored, in this order |
| `AgentEvidence.ClearedHasEvidence` | internal/agent/agent.go:253-278 | over every run, whatever a ledger on disk or in memory lists as cleared has an earlier event behind it that fenced it under a verified table, deleted its connections and stored it |
| `AgentLifecycle.CompactionNeeds` | internal/agent/agent.go:386-405 | a retirement id leaves the ledger only when cleared, acknowledged and found without connections in the same cycle |
| `AgentLifecycle.ZeroCheckCovers` | internal/agent/agent.go:392-405 | the zero check covers a compacted entry exactly when the snapshot does not give its id to another retirement |
| `AgentLifecycle.ReassertSealsIff` | internal/agent/agent.go:495-506 | the receipts after a re-assert are true exactly when no rule of the last applied snapshot carries the mark of an outstanding entry |
| `AgentPromises.ReassertIff` | internal/agent/agent.go:471-506 | on an unchanged answer the last applied table is installed behind every fence exactly when it is not known to be there, be it missing or the look failed, and the kernel takes it |
| `AgentPromises.RetryIff` | internal/agent/agent.go:515-526 | a failed boot is retried with the empty set, and only success ends the failure, at generation 0 |
| `AgentPromises.WipedTableComesBack` | internal/agent/agent.go:488-506 | a wiped table is back after the next unchanged cycle in which the calls succeed, and no error stands |
| `AgentPromises.InForceIff` | internal/agent/agent.go:407-421 | when the platform sends what is in force, nothing is done exactly when the table is known to be there |
| `AgentPromises.RestartRestores` | internal/agent/agent.go:119-149 | what a successful managed cycle applied is what a boot inside the window restores, behind the fences of the stored ledger |
| `AgentPromises.ErrorIff` | internal/agent/agent.go:377-455 | after a snapshot was sent an error stands exactly when it is not in force, and then what was applied before still counts as applied |
| `AgentPromises.QuietErrorIff` | internal/agent/agent.go:356-376 | an unchanged answer leaves an error exactly when the re-assert or retry failed; a failed exchange leaves everything as it was |
| `AgentPromises.FollowUpIff` | internal/agent/agent.go:452-464 | the follow-up comes exactly after an apply that changed the reported generation or was the first |
| `AgentPromises.PollReportsNews` | internal/agent/agent.go:311-315 | a poll whose first cycle applied something new ends with a report of that generation and no error |
| `AgentPromises.BootErrorIff` | internal/agent/agent.go:285-291 | a boot reports an error and is to be retried exactly when it applied nothing |
| `AgentPromises.NewLedgerIff` | internal/agent/agent.go:166-212 | a new ledger is begun exactly on a host without ledger file whose snapshot, if any, is legacy and whose kernel shows nothing managed, all of it looked at with success |
| `AgentPromises.BootKeepsUsable` | internal/agent/agent.go:150-155 | a boot that holds its ledger drops a stored copy exactly when it cannot be used and can be removed |
| `AgentMemory.EveryStateIsGrounded` | internal/agent/agent.go:240-465 | in every run an armed ledger, in memory or on disk, stands for a valid snapshot, and disk holds what memory has or what memory could have made of it in one write |
| `AgentMemory.MemoryEvolves` | internal/agent/agent.go:119-465 | in every run, through crashes, kills, reboots and saves that report wrongly, the stored ledger and the ledger in memory at any later time follow the ledger in memory now |
| `AgentMemory.MemoryNeverReuse` | internal/agent/agent.go:335-341 | from each life of the process to the next, the reported high-water marks never fall, every id keeps its mark and tuple and every mark its id |
| `AgentMemory.MemoryNeverReturns` | internal/retirement/ledger.go:165-168 | an id that was active and then was not is never active again, in this or any later life of the process |
| `AgentMemory.MemoryLifecycle` | internal/agent/agent.go:240-465 | the phase of an id never moves back in memory, in this or any later life of the process |
| `AgentLevel.LevelStep` | internal/agent/agent.go:427-437 | from a state whose memory is not behind disk the stored ledger only moves forward, whatever is cut, answered or reported |
| `AgentLevel.DurableNeverReuse` | internal/agent/agent.go:427-437 | over every stretch of a run in which memory is not behind disk in marks and bindings, through all crashes, the stored ledger stays, its marks never fall and no id or mark is reused |
| `AgentLevel.DurableLifecycle` | internal/agent/agent.go:240-279 | over every stretch in which memory is not behind disk at all, no id moves back through its phases on disk |
| `AgentLevel.TrueSavesStayLevel` | internal/retirement/ledger.go:274-282 | memory is never behind disk while saves report truly |
| `AgentBehind.StoredLedgerCanStepBackIff` | internal/agent/agent.go:270-276 | in every state of every run some event takes the stored ledger back, be it only in what is cleared, if and only if memory is behind disk |
| `AgentBehind.StoredBindingsCanStepBackIff` | internal/agent/agent.go:427-437 | in every state of every run some event lowers a mark of the stored ledger or gives up a binding if and only if memory is behind disk in marks and bindings |
| `AgentBehind.BoundIffGeneration` | internal/agent/agent.go:427-437 | an armed memory is behind disk in marks or bindings exactly when it is behind in the generation, otherwise at most in what is cleared |
| `AgentBehind.StoredGenerationCanFallIff` | internal/agent/agent.go:427-437 | in every state of every run some event lowers the stored generation if and only if the process runs and the stored generation is above the lowest one that its ledger still accepts |
| `AgentBehind.StoredBindingCanChangeIff` | internal/retirement/ledger.go:165-168 | in every state of every run some event, once no connection is left, binds an id or mark differently from its binding on disk if and only if the process runs and disk has an id above those in memory |
| `AgentWitnesses.UnsureSaveRegresses` | internal/retirement/ledger.go:274-282 | a run from a fresh host in which the stored generation falls after a save that took effect but reported failure |
| `AgentWitnesses.UnsureSaveRebinds` | internal/retirement/ledger.go:274-282 | a run from a fresh host in which, in the same way, an id and its mark are bound on disk to another tuple |
| `AgentWitnesses.UnsurePersistUnclears` | internal/agent/agent.go:270-276 | a run from a fresh host in which the save at the end of an apply took effect but reported failure, and a retirement that disk lists as cleared is stored as uncleared again, generation and ids being level |
| `AgentWitnesses.UnfaithfulAnswerBreaksReceipt` | internal/agent/agent.go:495-506 | a run from a fresh host in which an "unchanged" answer behind the ledger leads to a receipt while the kernel goes on stamping the mark |
| `AgentWitnesses.ReusedIdSkipsZeroCheck` | internal/agent/agent.go:392-405 | a run from a fresh host in which a cleared entry is compacted without a zero check, because the snapshot reuses its retirement id |
| `AgentWitnesses.OvertakenKernel` | internal/agent/agent.go:441-445 | a run from a fresh, never armed host in which a batch commits but reports failure, and the table is not the plan of the last applied snapshot |
| `AgentWitnesses.RetiredTrafficIsMisattributed` | internal/nftctl/nftctl.go:915-942 | two snapshots the ledger accepts, after which a packet of a retired connection is counted for the mapping that now has its port, and then dropped |
| `EndToEnd.PlanOfValid` | internal/nftctl/nftctl.go:115-135 | a valid snapshot compiles to rules with distinct endpoints and distinct ids |
| `EndToEnd.SameHashSameChain` | internal/snapshot/snapshot.go:100-117 | snapshots with the same desired hash compile to chains that do the same to every packet |
| `EndToEnd.FencedIffRetired` | internal/nftctl/nftctl.go:861-880 | the fences of a later ledger stop a connection exactly when the mapping that created it is outstanding there |
| `EndToEnd.MeteredByEndpoint` | internal/nftctl/nftctl.go:915-942 | a mapping meters a connection exactly when it has the protocol and public port of the mapping that created it |
| `EndToEnd.ClearFindsFlow` | internal/conntrackctl/conntrack.go:40-46 | conntrack finds the connection under an entry exactly when that entry retires its mapping |
| `EndToEnd.MatchesIffSameTuple` | internal/conntrackctl/conntrack.go:40-46 | a retirement is matched by the connections of exactly the mappings whose mark, protocol, port and target it names |
| `EndToEnd.RetirementSafety` | internal/nftctl/nftctl.go:834-880 | over every ledger run, a connection created by a compiled mapping is dropped in both directions by any later forward chain exactly while its mapping is an outstanding retirement; connections of active mappings are never dropped |
| `EndToEnd.VerifiedTableFences` | internal/nftctl/nftctl.go:419-520 | a table that passed the readback drops exactly the fenced flows |
| `AgentPackets.TableAfterApply` | internal/agent/agent.go:240-279 | in every run, right after an event whose apply returned success, the kernel holds its plan behind every fence of the ledger in memory, unless wiped meanwhile |
| `AgentPackets.ReachableTableFences` | internal/nftctl/nftctl.go:834-880 | over every run of the agent, through crashes and reboots, the table of a successful apply drops a connection that an earlier snapshot of this or an earlier life of the process created, in both directions, exactly when its mapping is then an outstanding retirement |

## Left out

- JSON encoding and decoding, unknown-field strictness, null and absent keys: the model starts from decoded values, so a mappings, active or entries list is never nil.
- Parsing of address, prefix and UUID texts by the libraries; addresses are four bytes, non-IPv4 texts stay opaque.
- SHA-256 is a perfect hash: a digest stands for what was hashed.
- HTTP transport, report serialisation, error texts and their caps, configuration, logging, the command line, scripts and the non-Linux stub.
- Real time, tickers, netlink and conntrack timeouts as durations; a timeout is one of the answers of a call.
- Token buckets and connection limits are an oracle over the packets a limiter has seen; only evaluation order and effects are modelled.
- Counter wrap-around at 64 bits, and byte counts in the packet machine, which counts packets.
- Byte order of marks and the status word is little-endian.
- MappingChain.MetersHaveSets: assumes that the sets of one table differ, as the kernel names each of them once.
- Connection marks set by anybody else: the runs assume that a connection carries no mark but 0 or one that a rule of the table in the kernel stamped.
- Corruption of the state files by others: boot handles it, the run theorems assume that only the agent writes them.
- The zero checks of one cycle read the connections at a single moment, at the start of the cycle.
- The kernel without retirement support (the branch for a kernel that is not managed).
- The last error is modelled as present or absent, without its text and mapping id.
- AgentRuns.ReceiptsAreFinal: assumes that every re-assert meets the condition of ReassertSealsIff, because a re-assert that does not makes a false receipt, as UnfaithfulAnswerBreaksReceipt shows.
- AgentLevel.DurableNeverReuse: assumes that memory is not behind disk in marks and bindings, because StoredBindingsCanStepBackIff shows the property false exactly otherwise.
- AgentLevel.DurableLifecycle: assumes that memory is not behind disk, because StoredLedgerCanStepBackIff shows the property false exactly otherwise.
- AgentReports.ReportsAreHonest: speaks of one life of the process, whose counters start empty, and assumes that a readout shows what the kernel counted.
- AgentHistory.QuarantineIsAbsorbing: speaks of one life of the process; a reboot decides anew from the files, as BootDecides states.
