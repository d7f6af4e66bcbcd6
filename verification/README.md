# Verified model of the router control plane

This project models the parts of the router control plane that are protocols, algorithms or codecs, and proves what
they guarantee. It reads like the program: one module per component, classes where the source updates an object in
place, and beside each class the function that says what a call does, about which the theorems are stated.

**Applying a key.** `ApplyJournal` is the write-ahead journal of a multi-file update: every rename, unlink and journal
write is one step, each of which can fail before or after its effect or take the process with it. `ApplyState` is the
object that performs those steps. `ProcessLock` is the advisory lock over threads, processes and forks, `Coordination`
the arbitration of manual and background intents over every interleaving, `ApplyCoordinator` the object built from
both. `RuntimeModel` holds configurations, their differences, generation tags and receipts, `ManagedConfig` the
configuration that a controlled load runs, `ConfigBuilder` the generated one, `ConfigRouting` where that one takes each
flow, `ConfigChange` what a change of keys amounts to, `XrayCore` the core behind its API (commands can fail after taking
effect, processes can be replaced at any time), `LiveRuntime` the hot and the cold apply that put all of it together,
and `LiveRuns` what every sequence of them keeps.

**Networks.** `Networks`, `IpsetBatch` and `RouteOverlaps` prove that the prefix index and the two-pointer sweeps
compute what the per-member kernel loop and the double loop compute.

**DNS.** `DnsNames` and `DnsResponses` are the wire codec, the CNAME closure and the filter of answers; `DnsQueue` is the
concurrent queue over the cache; `DnsGenerator` publishes the routing rules of the name server.

**Recovery.** `ProbeWorker` is the background probe of key pools, `RecoveryGate` and `FailoverTrigger` decide when a key may
be switched, `Failover` switches it, `PostApply` runs checks after a switch.

**State.** `Subscriptions` keeps several sources in one pool, `Fingerprint` and `StateSnapshot` back up and restore the
managed paths, `Shadowsocks` prints and parses an address. `Alphabets` spells out the characters that the codecs accept.

## Where the obvious statement is false

* The journal's last sync can fail after the journal is gone. A recovery then finds nothing to do although all files
  are new: `ApplyJournal.RecoveryAfterFailedCommit` says exactly when "not committed" means "rolled back",
  `ApplyJournal.LostClearExample` is a run, and `LiveRuntime` states what each apply makes of it. The hot apply takes
  the runtime back and leaves a receipt that attests nothing; the cold apply's "restored" error is wrong only if the
  configuration was already current.
* `prepare` accepts mode bits and repeated paths that `_load` refuses: `ApplyJournal.PreparedJournalLoads`,
  `ApplyJournal.RepeatedPathExample`.
* A protocol's SOCKS entrance does not lead to that protocol for every flow: the rule for connectivity checks stands in
  front and names no entrance. `ConfigRouting.SocksReachesOwnOutbound` says for which flows it does,
  `ConfigRouting.ConnectivityBypassExample` is one that leaves directly.
* A rule that names a missing outbound leads to the guard, unless the name spells the generation tag of an outbound:
  `ManagedConfig.RoutingIsPreserved`.
* `commit_guard` reads `_owner` without looking for a fork. In a child forked by the owner the bare test passes until
  the child's first own call: `ProcessLock.OwnerFieldInChild`, `ProcessLock.InheritedOwnerExample`.
* A release does not always free the lock: a child that was forked while it was held keeps it locked, owned by nobody,
  until its own first call or its end: `ProcessLock.ReleaseFreesLock`, `ProcessLock.ChildKeepsLock`.
* A set run against itself loses its addresses: `IpsetBatch.SelfRuleEmpties`, `IpsetBatch.SelfRuleExample`;
  `IpsetBatch.CoverageIsExact` says for any batch which addresses stay covered.
* Cancellation is sampled twice at the end of a batch. `ProbeWorker.ConcludeConserves` says exactly which samples lose
  or duplicate a task, `ProbeWorker.LostTaskExample` is a run. Likewise the final block samples once more:
  `ProbeWorker.ExitAccounts`, `ProbeWorker.ForgottenQueueExample`.
* A failed check without a service name that follows a healthy one has no recorded start, so the 300-second window is
  not enforced: `RecoveryGate.WindowIsEnforced`, `RecoveryGate.NamelessServiceExample`.
* Three failures in a row within five minutes do not always lead to a switch: one that continues an older series counts
  for it, and the next can find that series too old. `RecoveryGate.ThreeFailuresSwitch` says exactly when,
  `RecoveryGate.OutgrownSeriesExample` is such a series.
* A Telegram switch does not always follow the required number of confirmed failures: a failed call outside the checks
  presets the count and lifts the grace period. `FailoverTrigger.EverySwitchIsAccounted` says what each count is made of
  and exactly which switches are earned, `FailoverTrigger.UnearnedSwitchExample` is a run with one confirmation for three.
* A post-apply successor whose thread cannot be started stays registered for good: `PostApply.DeadForGood`,
  `PostApply.DeadSuccessorExample`. A failed start in `schedule` discards the calls other threads queued meanwhile.
* The failover rollback restores only the mode's own protocol: `Failover.RestoredExactly`, `Failover.CrossProtocolExample`.
* A signal between the rename of the DNS rules and the flag that records it leaves the new rules in place although the
  call fails, as does a rollback that fails: `DnsGenerator.FailureKeepsOutput`, `DnsGenerator.InterruptedExample`.
* Repeating a subscription sync moves placeholder keys that were fetched: `Subscriptions.SyncTwice`,
  `Subscriptions.PlaceholderExample`.
* Two trees that differ only in where a colon stands in a link are digested alike: `Fingerprint.ColonExample`. A record
  is ambiguous exactly if it is a link with a colon (`Fingerprint.AmbiguousRecords`); a tree has a double exactly if some
  link has a colon, in its own name or ahead of any slash of its target, at which it can be split under another name that
  stands strictly between its neighbours in the listing: `Fingerprint.BytesDetermineTree`, with
  `Fingerprint.TakenNameExample` for a name that is taken. Exactly for those trees a restore can leave the double in
  place: `StateSnapshot.RestoreIsExact`, `StateSnapshot.WrongRestoreExample`.
* The rebuilt Shadowsocks address is ambiguous for some fields: `Shadowsocks.RoundTrip` is an equivalence,
  `Shadowsocks.Ipv6Example` an address that does not come back.
* Without reserved slots a key change can change the topology: `ConfigChange.KeysChangeOutboundsOnly`,
  `ConfigChange.TopologyChangeExample`.

## Model

| member | source | states |
|---|---|---|
| ApplyState.ApplyFileBundle.Pending | app/proxy_apply_state.py:61-62 | a journal is there |
| ApplyState.ApplyFileBundle.Prepare | app/proxy_apply_state.py:64-87 | refuses a pending journal, an unlisted target, an oversized or an empty bundle, and otherwise writes the journal of exactly these targets |
| ApplyState.ApplyFileBundle.WriteEntries | app/proxy_apply_state.py:124-157 | replaces or removes the targets in order, one atomic step each, up to the first step that stops |
| ApplyState.ApplyFileBundle.Check | app/proxy_apply_state.py:116-122 | every target is readable, of allowed size, and holds its old or its new contents; anything else raises |
| ApplyState.ApplyFileBundle.Stage | app/proxy_apply_state.py:163-170 | the first half of a commit: load, check all targets, write the new contents |
| ApplyState.ApplyFileBundle.Seal | app/proxy_apply_state.py:175-181 | the second half: the durable phase, then the journal's removal |
| ApplyState.ApplyFileBundle.Commit | app/proxy_apply_state.py:163-181 | the whole commit with the dependent service's answer in between |
| ApplyState.ApplyFileBundle.Recover | app/proxy_apply_state.py:183-199 | forward after a committed phase, back before it, nothing without a journal; foreign contents are never overwritten |
| ApplyJournal.EveryRunSettles | app/proxy_apply_state.py:64-199 | every disk that any run of prepares, commits and recoveries can leave, with any step failing or dying anywhere, recovers to the initial files with exactly the sealed bundles applied, each whole and in order |
| ApplyJournal.StepSettles | app/proxy_apply_state.py:64-199 | one call keeps that, whatever happens to its steps |
| ApplyJournal.RecoverSettles | app/proxy_apply_state.py:183-199 | a recovery that completes yields exactly the settled files, drops the journal and names what it did; one that stops changes nothing about what recovery yields |
| ApplyJournal.SealsOnce | app/proxy_apply_state.py:163-181 | one journal becomes durable at most once |
| ApplyJournal.PhaseWriteDecides | app/proxy_apply_state.py:163-199 | once the files are staged and the service accepts, the write of the durable phase decides: if it took effect the next recovery leaves all files new, if not all old, whatever becomes of the rest |
| ApplyJournal.ServiceRefuses | app/proxy_apply_state.py:163-181 | a service that refuses or raises leaves the staged files and the journal to a recovery, and the commit raises |
| ApplyJournal.FirstCompletedRecovery | app/proxy_apply_state.py:163-199 | after one prepare and any commits and recoveries that stop anywhere, the first recovery that completes leaves all files old or all new, new exactly if the phase became durable |
| ApplyJournal.UndisturbedCommit | app/proxy_apply_state.py:163-181 | on every reachable disk whose prepared journal loads a commit without faults, whose service accepts, completes |
| ApplyJournal.UndisturbedRecovery | app/proxy_apply_state.py:183-199 | on every reachable disk whose journal loads a recovery without faults completes |
| ApplyJournal.PrepareExactly | app/proxy_apply_state.py:64-87 | a prepare without faults succeeds exactly if nothing is pending and the bundle is listed, readable and of allowed size, and records what each target holds and is to hold; otherwise it changes nothing |
| ApplyJournal.FailedStepChangesNothing | app/proxy_apply_state.py:64-199 | a call whose first step fails before its effect changes nothing |
| ApplyJournal.PreparedJournalLoads | app/proxy_apply_state.py:78-110 | the prepared journal loads exactly if existing targets have plain permission bits and no path is named twice |
| ApplyJournal.RepeatedPathExample | app/proxy_apply_state.py:64-110 | a bundle that names a path twice is prepared, and no commit or recovery gets past its journal |
| ApplyJournal.RefusedForGood | app/proxy_apply_state.py:89-122 | a journal that does not load, a target with contents that are neither old nor new, or one that is too large: every later call raises, nothing is written, and the journal stays |
| ApplyJournal.OthersAreServed | app/proxy_apply_state.py:112-199 | a journal that loads and whose targets all hold old or new contents of allowed size is recovered, or committed if a service accepts |
| ApplyJournal.WritesAllowedOnly | app/proxy_apply_state.py:64-199 | no call ever changes a file that is not listed, nor its mode |
| ApplyJournal.RecoveryAfterFailedCommit | app/proxy_apply_state.py:159-199 | what a recovery after a failed commit means: "not committed" is a rollback exactly if the journal was not lost at the last sync or nothing changed |
| ApplyJournal.LostClearExample | app/proxy_apply_state.py:159-161 | a run in which the recovery finds nothing although all files are new |
| ProcessLock.ProcessRLock.Acquire | app/proxy_apply_coordinator.py:69-102 | nest, take the kernel lock, or leave nothing behind |
| ProcessLock.ProcessRLock.ReleaseOnce | app/proxy_apply_coordinator.py:104-115 | one nesting level less; the outermost releases the kernel lock; others are refused |
| ProcessLock.ProcessRLock.ForgetInherited | app/proxy_apply_coordinator.py:45-52 | a child drops what the fork copied |
| ProcessLock.EveryRunIsSound | app/proxy_apply_coordinator.py:28-132 | what every interleaving of threads, processes, forks and deaths keeps |
| ProcessLock.MutualExclusion | app/proxy_apply_coordinator.py:69-115 | at most one thread of one process holds the lock, at any nesting depth |
| ProcessLock.DepthIsPrivate | app/proxy_apply_coordinator.py:69-115 | only the holder's own calls change its depth, by one each; nothing else takes the lock from it |
| ProcessLock.ReleaseFreesLock | app/proxy_apply_coordinator.py:104-115 | the outermost release gives the kernel lock back exactly if no forked child still has its description open |
| ProcessLock.DeathFreesLock | app/proxy_apply_coordinator.py:28-52 | so does the death of a process |
| ProcessLock.FreeLockIsTaken | app/proxy_apply_coordinator.py:69-102 | an acquire with no other thread of its process ahead takes the lock exactly if the kernel lock is free |
| ProcessLock.AbandonLeavesNothing | app/proxy_apply_coordinator.py:88-102 | one that is given up leaves nothing open |
| ProcessLock.ForkOwnsNothing | app/proxy_apply_coordinator.py:45-52 | a forked child owns nothing |
| ProcessLock.ChildKeepsLock | app/proxy_apply_coordinator.py:45-115 | a child forked while the lock is held keeps it from everybody after its parent released it, until the child's own first call |
| ProcessLock.OwnerFieldInChild | app/proxy_apply_coordinator.py:307-319 | the bare owner test of the commit guard is wrong in a child exactly until the child's own first call |
| ProcessLock.InheritedOwnerExample | app/proxy_apply_coordinator.py:307-319 | a child that passes the bare test without holding the lock |
| Coordination.EveryRunArbitrates | app/proxy_apply_coordinator.py:177-356 | over every interleaving a pending manual request is the newest generation, one agent at most is in a guard, the generation never decreases |
| Coordination.StaleForever | app/proxy_apply_coordinator.py:297-305 | a ticket that stops being current never becomes current again |
| Coordination.OvertakenTicketIsRefused | app/proxy_apply_coordinator.py:288-341 | no transaction and no guard body for a ticket issued before a later manual request |
| Coordination.GuardBodyIsUndisturbed | app/proxy_apply_coordinator.py:306-319 | nobody changes the intent during a guard body |
| Coordination.OpenTransactionStaysCurrent | app/proxy_apply_coordinator.py:321-341 | an open transaction's ticket stays current, through nested releases, exactly until a manual request or a recovery |
| Coordination.ManualRequestHasPriority | app/proxy_apply_coordinator.py:236-341 | no background transaction is accepted while a manual request is pending |
| Coordination.TransactionsExclude | app/proxy_apply_coordinator.py:321-341 | until its holder ends it, whatever it and the others do, an open transaction stays open and no other agent's is accepted |
| Coordination.CurrentTicketIsAccepted | app/proxy_apply_coordinator.py:321-341 | nothing else is refused: with the lock free the current ticket is accepted, a background one while nothing is pending, a manual one while its request is |
| Coordination.ReleaseUndoesTake | app/proxy_apply_coordinator.py:321-341 | taking the execution lock and releasing it again leaves everything as it was, an outer transaction included |
| Coordination.LeavingUndoesEntering | app/proxy_apply_coordinator.py:306-319 | a guard on the current ticket is granted to the lock's holder, and its end gives the intent back |
| Coordination.CancelUndoesRequest | app/proxy_apply_coordinator.py:228-295 | a withdrawn manual request leaves nothing pending, though every earlier ticket stays invalid; withdrawing another one changes nothing |
| Coordination.RecoveryStartsAnew | app/proxy_apply_coordinator.py:343-356 | a recovery that is not kept waiting leaves nothing pending and begins a generation behind all known ones |
| ApplyCoordinator.ApplyCoordinator.Capture | app/proxy_apply_coordinator.py:212-217 | the ticket of the current intent |
| ApplyCoordinator.ApplyCoordinator.RequestManual | app/proxy_apply_coordinator.py:288-295 | a new generation and epoch, pending |
| ApplyCoordinator.ApplyCoordinator.CancelManual | app/proxy_apply_coordinator.py:228-234 | withdraws its own pending request and nothing else |
| ApplyCoordinator.ApplyCoordinator.BeginTransaction | app/proxy_apply_coordinator.py:321-341 | lock, check, bump; a refusal leaves no lock and no request behind |
| ApplyCoordinator.ApplyCoordinator.EndTransaction | app/proxy_apply_coordinator.py:321-341 | the end of a transaction releases the lock and withdraws its manual request |
| ApplyCoordinator.ApplyCoordinator.BeginIntent | app/proxy_apply_coordinator.py:236-244 | a nested intent shares the ticket, the outermost captures or requests one, without the execution lock |
| ApplyCoordinator.ApplyCoordinator.EndIntent | app/proxy_apply_coordinator.py:245-251 | the end of an intent withdraws its own manual request and nothing else |
| ApplyCoordinator.ApplyCoordinator.BeginWriter | app/proxy_apply_coordinator.py:270-274 | the first writer of an intent is accepted only on the very ticket that the intent captured; a refusal leaves the intent open |
| ApplyCoordinator.ApplyCoordinator.EndWriter | app/proxy_apply_coordinator.py:274-280 | the end of that writer leaves the intent open as a background one |
| ApplyCoordinator.ApplyCoordinator.BeginMutation | app/proxy_apply_coordinator.py:254-280 | a nested writer shares the accepted ticket, the first one in an open intent needs its ticket to be current, and outside an intent it opens one with a transaction |
| ApplyCoordinator.ApplyCoordinator.EndMutation | app/proxy_apply_coordinator.py:253-280 | the outermost writer's end |
| ApplyCoordinator.ApplyCoordinator.BeginCommitGuard | app/proxy_apply_coordinator.py:306-319 | only the lock's owner, only on the current ticket |
| ApplyCoordinator.ApplyCoordinator.EndCommitGuard | app/proxy_apply_coordinator.py:306-319 | the guard's end frees the intent and changes nothing else |
| ApplyCoordinator.ApplyCoordinator.RecoverAbandonedManual | app/proxy_apply_coordinator.py:343-356 | nothing is pending afterwards and every earlier ticket is invalid |
| RuntimeModel.NoRestartMeansOneOutbound | app/proxy_live_runtime.py:274-295 | without a core restart the desired configuration is the current one with at most this protocol's outbound replaced in its place |
| RuntimeModel.RequirementExactly | app/proxy_live_runtime.py:274-295 | exactly when an apply is hot, and when a protocol's own service is restarted instead: the outbound of an allowed protocol changes between qualified bodies |
| RuntimeModel.ClassifyMeans | app/proxy_apply_plan.py:107-139 | only rules, only outbounds under the same tags, or both; anything else concerns the core |
| RuntimeModel.SelectorsAreExact | app/xray_live_apply.py:94-153 | no handler tag is a prefix of another one |
| RuntimeModel.SwitchedIsOrderly | app/proxy_live_runtime.py:393-398 | selecting a fresh tag keeps every selected tag a handler tag of its own outbound, distinct and disjoint from the retained ones, and those within their number |
| RuntimeModel.DetachedIsOrderly | app/proxy_live_runtime.py:266-270 | detaching a retained handler keeps that and removes no selected tag |
| RuntimeModel.LoadedIsOrderly | app/proxy_live_runtime.py:125-137 | the receipt of a controlled load is orderly, whatever came before |
| RuntimeModel.TargetsMean | app/proxy_live_runtime.py:139-155 | a controlled load has a target for exactly the protocols' outbounds: the last receipt's, or the initial one |
| RuntimeModel.LoadedTagsMean | app/xray_live_apply.py:98-153 | the loaded core has the guard, each target, and every other outbound's own tag |
| RuntimeModel.ManageableMeans | app/xray_live_apply.py:98-131 | what a table of targets is refused for |
| ManagedConfig.RoutingIsPreserved | app/xray_live_apply.py:98-153 | the managed configuration takes every flow outside the API to exactly the outbound it reached before, and a flow to a missing outbound to the guard, or to the outbound whose generation tag was named |
| ManagedConfig.ManagedIsReached | app/xray_live_apply.py:134-142 | a balancer's selector picks its own outbound and no other |
| ManagedConfig.SelectorIsExact | app/xray_live_apply.py:123-142 | a generation tag is a prefix of exactly its own outbound's new tag |
| ConfigBuilder.Builder.BuildProxyCoreConfig | app/proxy_config_builder.py:231-433 | the lists are built step by step as the function of the options and slots says |
| ConfigBuilder.Builder.Proxy | app/proxy_config_builder.py:189-220 | one protocol's inbounds, outbound and rules, or nothing without a key |
| ConfigBuilder.Builder.TproxyRoute | app/proxy_config_builder.py:223-228 | one redirected entrance |
| ConfigBuilder.Builder.Finish | app/proxy_config_builder.py:408-433 | overlap corrections and direct traffic in front, the default behind |
| ConfigBuilder.OwnRuleNamesSocks | app/proxy_config_builder.py:189-220 | no rule but its own names a protocol's SOCKS entrance, and that one is there exactly if the protocol has a handler |
| ConfigBuilder.BuildsAlike | app/proxy_config_builder.py:231-433 | with the same handlers present only the outbounds' bodies depend on the keys |
| ConfigBuilder.EntrancesExactly | app/proxy_config_builder.py:189-406 | the built configuration has exactly these entrances, each sniffed for routing alone where the options say so |
| ConfigBuilder.RulesAreListed | app/proxy_config_builder.py:74-171 | whatever lists the options leave empty, no rule has an empty one |
| ConfigBuilder.SlotsMean | app/proxy_config_builder.py:231-300 | a slot is filled exactly by a key that is not empty, and blocks exactly if it is reserved without one |
| ConfigRouting.EveryFlowIsRouted | app/proxy_config_builder.py:74-228 | walking the finished rules, every flow leaves by its own protocol's outbound, with exactly the exceptions for connectivity checks, torrents, corrected overlaps and what a strict policy does not list |
| ConfigRouting.SocksReachesOwnOutbound | app/proxy_config_builder.py:189-220 | a flow from a protocol's SOCKS entrance is decided by the protocol's own rule exactly if the handler is there and no connectivity check lists the flow's name |
| ConfigRouting.ConnectivityBypassExample | app/proxy_config_builder.py:419-425 | a flow from the entrance of a protocol with a key that leaves directly |
| ConfigChange.BuildIsValid | app/proxy_apply_plan.py:79-104 | a built configuration passes the structural check, with distinct named tags, exactly if some protocol has a handler |
| ConfigChange.FaultsAreInvalid | app/proxy_apply_plan.py:79-104 | no outbound, a repeated tag or a blank one is refused |
| ConfigChange.KeysChangeOutboundsOnly | app/proxy_apply_plan.py:107-139 | two key assignments differ in no more than outbounds exactly if the same protocols have a handler, and are compared at all exactly if each has one; with reserved slots both always hold |
| ConfigChange.TopologyChangeExample | app/proxy_apply_plan.py:115-139 | a second key without reserved slots |
| ConfigChange.OneKeyAsksForNoRestart | app/proxy_live_runtime.py:274-295 | with reserved slots one key's change asks for a core restart exactly if the protocol is not allowed or one of its outbounds is not qualified |
| XrayCore.XrayApi.Outbounds | app/xray_live_apply.py:191-199 | the tags of the handlers |
| XrayCore.XrayApi.Target | app/xray_live_apply.py:201-209 | one balancer's selection |
| XrayCore.XrayApi.Add | app/xray_live_apply.py:238-239 | a handler appears, or a failure that may have been preceded by the effect |
| XrayCore.XrayApi.Select | app/xray_live_apply.py:241-244 | the selection moves and is read back |
| XrayCore.XrayApi.Remove | app/xray_live_apply.py:246-249 | the handler goes and its absence is confirmed |
| XrayCore.XrayApi.Observe | app/xray_live_apply.py:211-236 | handlers and selections as they are |
| LiveRuntime.ProxyLiveRuntime.Persist | app/proxy_live_runtime.py:414-444 | every exit leaves a disk that settles on all old or all new; success is all new, a plain failure without a journal is all old unless the journal was lost |
| LiveRuntime.ProxyLiveRuntime.Checkpoint | app/proxy_live_runtime.py:387-391 | the marker records how far the attempt came, or a failure before or after |
| LiveRuntime.ProxyLiveRuntime.CheckCurrent | app/xray_live_apply.py:311-314 | the intent is current and the process the expected one |
| LiveRuntime.ProxyLiveRuntime.Forward | app/xray_live_apply.py:326-343 | add, confirm, select, verify: the runtime is somewhere between before and after, and after if it returns |
| LiveRuntime.ProxyLiveRuntime.Attempt | app/xray_live_apply.py:324-342 | switch the runtime, then make durable what it shows |
| LiveRuntime.ProxyLiveRuntime.TakeBack | app/xray_live_apply.py:347-365 | a recorded rollback has restored the exact previous runtime |
| LiveRuntime.ProxyLiveRuntime.SwitchPrepared | app/xray_live_apply.py:292-366 | it completes, or nothing changed, or it is rolled back, or a marker blocks every later apply |
| LiveRuntime.ProxyLiveRuntime.ClearMarker | app/proxy_live_runtime.py:215-220 | the marker goes, or a failure before or after; its absence is no failure |
| LiveRuntime.ProxyLiveRuntime.WriteReceipt | app/proxy_live_runtime.py:266-270 | the receipt replaced on its own, or a failure before or after |
| LiveRuntime.ProxyLiveRuntime.DetachPrevious | app/proxy_live_runtime.py:237-272 | never touches a selected handler, and unless it completes the marker stays |
| LiveRuntime.ProxyLiveRuntime.ApplyUnchanged | app/proxy_live_runtime.py:325-367 | an unchanged configuration: a health answer, or the key text stored as one bundle; without faults one or the other; an answer without a health check means that the key and every metadata update are stored |
| LiveRuntime.ProxyLiveRuntime.ApplyDifferent | app/proxy_live_runtime.py:363-477 | a changed configuration that passes the checks is applied; one that does not changes nothing |
| LiveRuntime.ProxyLiveRuntime.Admit | app/proxy_live_runtime.py:297-324 | why an apply stops before it reads the plan, or the attested receipt it starts from |
| LiveRuntime.ProxyLiveRuntime.SwitchOver | app/proxy_live_runtime.py:450-465 | the switch with what its failure leaves: a completed rollback clears the marker, nothing else does |
| LiveRuntime.ProxyLiveRuntime.SwitchAndFinish | app/proxy_live_runtime.py:405-477 | every end is a restored state, an installed one, a lost journal with an unattested runtime, or blocked |
| LiveRuntime.ProxyLiveRuntime.ApplyChanged | app/proxy_live_runtime.py:393-477 | the same, and on every end the receipt that the files settle on has orderly handler tags |
| LiveRuntime.ProxyLiveRuntime.AttestedState | app/proxy_live_runtime.py:312-319 | the receipt on disk is readable and describes this configuration, the running process and what its API shows |
| LiveRuntime.ProxyLiveRuntime.Finish | app/proxy_live_runtime.py:460-477 | after the durable commit nothing is rolled back; without a marker the receipt describes the runtime |
| LiveRuntime.ProxyLiveRuntime.TryApply | app/proxy_live_runtime.py:297-477 | one hot apply: an unresolved transaction is not touched, no restart request changes anything, an error that blocks nothing is a restored or an installed state or a lost journal, "done" is an attested receipt, "cleanup pending" the new files and their receipt, "unchecked" exactly the key text and the metadata of an unchanged configuration; from an attested runtime with nothing in the way it ends "done"; every exit leaves a recoverable disk, and on every exit, in an unchanged process or not, the receipt that the disk settles on keeps orderly handler tags; on either the key file holds the key, the configuration file the desired configuration with the fresh tag, and every metadata update is in place |
| LiveRuntime.ProxyLiveRuntime.ConfirmsConfig | app/proxy_live_runtime.py:109-121 | the attested configuration is on disk and running |
| LiveRuntime.ProxyLiveRuntime.InspectControlledLoad | app/proxy_live_runtime.py:139-155 | a new process runs exactly the configuration on disk; a table of repeated or foreign targets is refused |
| LiveRuntime.ProxyLiveRuntime.RegisterControlledLoad | app/proxy_live_runtime.py:125-137 | the receipt of a confirmed load, orderly whatever was there before; the marker goes last |
| LiveRuntime.ProxyLiveRuntime.CommitCold | app/proxy_live_runtime.py:189-196 | the commit with the restart and its confirmation as the service's answer |
| LiveRuntime.ProxyLiveRuntime.PrepareAndCommit | app/proxy_live_runtime.py:187-196 | files durable only after the core restarted into them |
| LiveRuntime.ProxyLiveRuntime.RegisterDesired | app/proxy_live_runtime.py:200-212 | the installed bundle registered with the restarted core |
| LiveRuntime.ProxyLiveRuntime.RestartRecovered | app/proxy_live_runtime.py:203-208 | the core restarted into the recovered files, if it had been restarted at all |
| LiveRuntime.ProxyLiveRuntime.RecoverCold | app/proxy_live_runtime.py:197-211 | the error path: committed after all, everything old with the core restarted into it, or blocked |
| LiveRuntime.ProxyLiveRuntime.ApplyCold | app/proxy_live_runtime.py:157-213 | "cold" is all files new and an attested receipt, the "restored" error all files old (or, for a configuration that was already current, a lost journal), any other failure one of those or blocked; from an attested runtime with nothing in the way it ends "cold"; on "cold" the key file, the configuration file and every metadata update hold the new contents |
| LiveRuntime.AfterCommit | app/proxy_live_runtime.py:424-444 | every end of a commit and of the recovery behind it |
| LiveRuntime.HotInstalled | app/proxy_live_runtime.py:400-404 | the files of a completed hot apply: the key file holds the key, the configuration file the desired configuration with the fresh tag, and every metadata update is in place, whatever is written to the receipt behind it |
| LiveRuntime.KeyInstalled | app/proxy_live_runtime.py:340-351 | the files of a completed key update, likewise |
| LiveRuntime.ColdInstalled | app/proxy_live_runtime.py:157-187 | the files of a completed cold apply, likewise, with the targets of a controlled load |
| LiveRuntime.FinalSays | app/proxy_live_runtime.py:237-272 | the receipt of a completed hot apply: the new generation and targets, the observed process, and the retained handlers with or without exactly the old one |
| LiveRuntime.StartupRecovery | app/proxy_live_runtime.py:222-225 | after a hot apply ended anywhere, a recovery that completes leaves all files old, all new, or all new with the old handler struck from the receipt; one that stops can be repeated |
| LiveRuntime.ColdStartupRecovery | app/proxy_live_runtime.py:222-225 | after a cold apply all files old or all new, either with the receipt of a controlled load |
| LiveRuns.Hot | app/proxy_live_runtime.py:297-477 | a hot apply keeps the receipt that the disk settles on sound: readable, its tags orderly, its handlers in the core it describes |
| LiveRuns.ColdManual | app/proxy_live_runtime.py:157-213 | so does a cold apply |
| LiveRuns.Load | app/proxy_live_runtime.py:125-137 | so does a controlled load, and one that succeeds makes it sound |
| LiveRuns.RecoverFilesBeforeStartup | app/proxy_live_runtime.py:222-235 | so does the recovery at startup, which reports the generation of that receipt |
| LiveRuns.Run | app/proxy_live_runtime.py:125-477 | so does every sequence of them, whatever fails, dies or is replaced on the way |
| LiveRuntime.FinalIsOrderly | app/proxy_live_runtime.py:393-398 | a fresh handler tag keeps the receipt orderly, detached or not |
| Networks.Laminar | app/route_intersections.py:298-316 | two networks that overlap are nested |
| Networks.CoversMeans | app/route_intersections.py:298-316 | one network is inside another exactly if the other covers all its addresses, and two overlap exactly if they share one |
| Networks.MaskFinds | app/route_ipset_batch.py:20-30 | masking an address finds the block that contains it |
| IpsetBatch.NetIndex.constructor | app/route_ipset_batch.py:13-18 | one table of addresses per version and prefix length |
| IpsetBatch.NetIndex.Contains | app/route_ipset_batch.py:20-30 | a host is found exactly if some stored network of its version contains it, a wider network exactly if it is stored |
| IpsetBatch.PlanRule | app/route_ipset_batch.py:62-72 | one rule's remaining members and deletions |
| IpsetBatch.RemoveOverlaps | app/route_ipset_batch.py:50-73 | the batch's deletions applied at the end leave the sets of the rules run one after the other |
| IpsetBatch.RefusedForName | app/route_ipset_batch.py:50-53 | sixteen rules are never too many: they are refused exactly for a name that one of them uses |
| Alphabets.SetNameMeans | app/route_ipset_batch.py:51-53 | a set name has one to 31 letters, digits or underscores |
| IpsetBatch.BatchIsKernelRule | app/unblock_ipset.sh:1024-1043 | one rule's deletions leave exactly what testing and deleting member by member leaves, even for a set against itself |
| IpsetBatch.NothingLeftToRemove | app/route_ipset_batch.py:50-73 | after the batch no remaining loser member is accepted by its winner |
| IpsetBatch.CoverageIsConserved | app/route_ipset_batch.py:50-73 | if no rule names one set twice, the addresses covered by all sets together stay the same |
| IpsetBatch.SelfRuleEmpties | app/route_ipset_batch.py:50-73 | a rule of a set against itself empties it |
| IpsetBatch.CoverageIsExact | app/route_ipset_batch.py:50-73 | after any batch an address is still covered exactly if no rule of a set against itself found it in that set alone |
| IpsetBatch.SelfRuleExample | app/route_ipset_batch.py:50-73 | one host that such a rule loses |
| RouteOverlaps.ScanRow | app/route_intersections.py:360-378 | the scan for one left member finds its whole row |
| RouteOverlaps.Sweep | app/route_intersections.py:347-379 | the right pointer never moves back, yet every row is the double loop's |
| RouteOverlaps.OverlapSamples | app/route_intersections.py:347-379 | the count is the number of distinct unprotected overlapping pairs over both versions, and the samples are the first ones found |
| RouteOverlaps.TableMeaning | app/route_intersections.py:307-379 | a pair is counted exactly if two members with these texts overlap unprotected |
| RouteOverlaps.ReportMeans | app/route_intersections.py:347-379 | over both versions a pair of texts is reported exactly if two members with these texts share an address and are not protected |
| RouteOverlaps.ProtectedMeans | app/route_intersections.py:307-324 | a pair is left alone exactly if one of the two is a single address that its own side gives priority, and the other side gives its network none |
| RouteOverlaps.SweepLosers | app/service_routes.py:622-641 | one version's losers, stopping at the first overlap of each |
| RouteOverlaps.LoserMembers | app/service_routes.py:611-642 | exactly the members with at least one unprotected overlap, each once |
| RouteOverlaps.DeletionClearsOverlaps | app/service_routes.py:611-642 | after those are deleted the double loop finds nothing |
| DnsNames.ReadName | app/route_dns_batch.py:70-89 | the reader stops on any bytes, never reads outside the packet, and ends behind its start |
| DnsNames.NameEndsInPacket | app/route_dns_batch.py:70-89 | a name that is read ends inside the packet |
| DnsNames.NameRoundTrip | app/route_dns_batch.py:70-89 | encoding then reading gives the lower-cased name and the offset right behind it |
| DnsNames.CompressedNameRoundTrip | app/route_dns_batch.py:70-89 | labels and a pointer read as the labels of both, ending behind the pointer |
| DnsNames.DomainRoundTrip | app/route_dns_batch.py:150-158 | every accepted domain survives the wire, with at most 127 labels |
| DnsNames.BadLabelIsRefused | app/route_dns_batch.py:70-89 | a label that is too long or leaves the packet or ASCII, a reserved length and a cut pointer end the reading, wherever they come |
| DnsNames.NameIsLower | app/route_dns_batch.py:70-89 | a name that is read is ASCII without capitals |
| Alphabets.DomainMeans | app/route_dns_batch.py:150-158 | a domain is asked for exactly if its characters, length and labels are these |
| Alphabets.LowerMeans | app/route_dns_batch.py:79-79 | lower-casing turns each capital into the small letter in its place and changes nothing else |
| DnsNames.SplitLoses | app/route_dns_batch.py:155-158 | splitting at the dots and joining again loses nothing |
| DnsResponses.WalkSections | app/route_dns_batch.py:107-132 | the records of all sections, or the first malformed one |
| DnsResponses.AcceptOwners | app/route_dns_batch.py:133-138 | the rounds of the CNAME closure |
| DnsResponses.Collect | app/route_dns_batch.py:139-147 | addresses and lifetime of the accepted owners |
| DnsResponses.ParseResponse | app/route_dns_batch.py:92-147 | the answer of the packet as the lemmas below describe it: which addresses, for how long, and which packets are refused or retried |
| DnsResponses.AcceptedOwners | app/route_dns_batch.py:133-138 | accepted owners are exactly the names that at most sixteen aliases in a row lead to |
| DnsResponses.RoundLimitSuffices | app/route_dns_batch.py:133-138 | with at most sixteen distinct targets every reachable name is accepted |
| DnsResponses.AnswerIsJustified | app/route_dns_batch.py:92-147 | each address stands in the answer section as a usable record of a name that aliases of that section reach from the question, for at most 300 seconds and that record's own lifetime |
| DnsResponses.AnswerIsComplete | app/route_dns_batch.py:107-147 | unless the name does not exist, every usable address record of the answer section whose owner at most sixteen aliases of that section lead to is answered |
| DnsResponses.LifetimeIsExact | app/route_dns_batch.py:139-147 | an answer with addresses lives 300 seconds or as long as the shortest-lived record of an accepted owner |
| DnsResponses.NoSoaNoLifetime | app/route_dns_batch.py:127-131 | an empty answer without an SOA record that counts has no lifetime |
| DnsResponses.LastSoaLifetime | app/route_dns_batch.py:127-131 | with one, the last gives it the smallest of 30 seconds, its own lifetime and its minimum |
| DnsResponses.WalkIsExact | app/route_dns_batch.py:107-132 | the walk fails on exactly the packets with a record that does not fit or names in its data that do not read |
| DnsResponses.AnsweredExactly | app/route_dns_batch.py:107-147 | a reply whose header and question are accepted is answered exactly if all its records read |
| DnsResponses.ForeignReplyIsInvalid | app/route_dns_batch.py:92-98 | no reply to another transaction, without the response flag, of another operation or with another number of questions is used |
| DnsResponses.ForeignQuestionIsInvalid | app/route_dns_batch.py:99-102 | no reply to another name, type or class is used |
| DnsResponses.FixedRoundTrip | app/route_dns_batch.py:107-116 | the type, the class, the lifetime, the length and the data of a record are read as RFC 1035, section 4.1.3, encodes them |
| DnsResponses.LocalBlocks | app/route_dns_batch.py:26-36 | which IPv4 addresses the filter refuses |
| DnsResponses.ColonsMean | app/route_dns_batch.py:26-36 | which IPv6 addresses it refuses for their canonical text: exactly those whose first two groups are zero and begin a longest run of zero groups |
| DnsResponses.OwnQuestionIsAccepted | app/route_dns_batch.py:92-106 | a reply that repeats the query's own question is retried if truncated, fails if its code is neither 0 nor 3, and is read from behind the question otherwise |
| DnsQueue.ResolveQueue | app/route_dns_batch.py:210-259 | whatever completes first, each waiting query is asked once, at most sixteen are in flight, and results and cache are those of the queries one by one |
| DnsQueue.TakeFinished | app/route_dns_batch.py:239-259 | the queries that finished together, one by one |
| DnsQueue.Complete | app/route_dns_batch.py:247-259 | one finished query's result and cache entry |
| DnsQueue.Refill | app/route_dns_batch.py:232-238 | more queries are submitted while there is room |
| DnsQueue.FirstPass | app/route_dns_batch.py:219-226 | live entries answer at once, exactly the others wait |
| DnsQueue.CallIsTraced | app/route_dns_batch.py:192-260 | an answer is fresh or that of a good response at most 600 seconds old, and less than 300 unless the query just failed |
| DnsQueue.ResultsMean | app/route_dns_batch.py:219-259 | each query: a live entry answers with its values that pass the filter, a failed one with those of an old entry, a good response with its own values, remembered for its lifetime up to 300 seconds |
| DnsQueue.RememberedIsFound | app/route_dns_batch.py:192-259 | what one call remembers a later one finds for 600 seconds unless it has more than 256 values, and answers with while its lifetime lasts |
| DnsGenerator.Generator.GenerateRules | app/dns_route_generator.py:261-314 | render, re-check, publish, restart, remember, and roll back, as the function says |
| DnsGenerator.EveryRunIsHonest | app/dns_route_generator.py:261-314 | in every run the cache holds a real rendering |
| DnsGenerator.SuccessIsRendering | app/dns_route_generator.py:261-314 | a successful call leaves the rendering of the inputs it saw last, cached or not |
| DnsGenerator.SuccessExactly | app/dns_route_generator.py:261-314 | a call succeeds exactly if its snapshots agree, its inputs are cached or render, and each step it needs works |
| DnsGenerator.CacheIsUsed | app/dns_route_generator.py:276-277 | the next call with the same inputs takes the cached path |
| DnsGenerator.FailureKeepsOutput | app/dns_route_generator.py:295-314 | a failing call leaves the previous output exactly unless its publication sticks, and then it is a rendering all the same |
| DnsGenerator.FailureKeepsCache | app/dns_route_generator.py:295-314 | a failing call leaves the cache alone, unless the daemon was back and the write of the cache was interrupted |
| DnsGenerator.InterruptedExample | app/dns_route_generator.py:295-314 | a call that fails and leaves the new rules |
| DnsGenerator.DomainInSet | app/dns_route_generator.py:63-68 | the loop finds exactly the domains that are listed or have a listed parent |
| ProbeWorker.TakeBatch | app/pool_probe_runner.py:15-29 | batch and rest are the queue in order |
| ProbeWorker.BatchIsLongest | app/pool_probe_runner.py:15-29 | a batch is the longest allowed prefix, and an isolated task is alone |
| ProbeWorker.ProbePass.Work | app/pool_probe_runner.py:592-866 | the worker's loop under a script of what its environment answers, with the queue, the marks and the flags as the lemmas below describe them |
| ProbeWorker.ProbePass.Validate | app/pool_probe_runner.py:690-705 | tasks that cannot be prepared are marked, the rest is the batch |
| ProbeWorker.ProbePass.Finish | app/pool_probe_runner.py:779-830 | the end of a batch: mark, requeue, time out |
| ProbeWorker.ProbePass.MarkChecked | app/pool_probe_runner.py:423-430 | a task is counted once |
| ProbeWorker.ConcludeConserves | app/pool_probe_runner.py:795-823 | the end of a batch conserves the tasks exactly if each late task's own cancel sample agrees with the requeue's |
| ProbeWorker.RunConserves | app/pool_probe_runner.py:592-866 | at every loop head the queue and the marks make up the input |
| ProbeWorker.RunKnows | app/pool_probe_runner.py:592-866 | whatever the samples, tasks are queued, marked or among the known dropped ones, and none appears |
| ProbeWorker.BatchIsChecked | app/pool_probe_runner.py:687-850 | a batch that ends in time or fails as a whole is checked off completely |
| ProbeWorker.ExitAccounts | app/pool_probe_runner.py:868-883 | checked and handed-over tasks add up to the total exactly if the queue is empty, the run paused or the request is still set |
| ProbeWorker.TurnMeans | app/pool_probe_runner.py:592-866 | one turn: what becomes of the queue, and exactly when it stops and when it pauses |
| ProbeWorker.PausedExactly | app/pool_probe_runner.py:622-672 | a run has paused exactly if some turn of it did |
| ProbeWorker.CancelTakesNothing | app/pool_probe_runner.py:603-612 | a cancel request takes no further batch, and the queue is handed over if the request still stands or the run had paused |
| ProbeWorker.GivingUpHandsOver | app/pool_probe_runner.py:622-672 | a run that gives up for lack of memory hands over exactly the queue it had |
| ProbeWorker.InterruptedHandsOver | app/pool_probe_runner.py:795-823 | behind an interrupted or stuck batch all that is left is handed over, the requeued tasks first |
| ProbeWorker.ForgottenQueueExample | app/pool_probe_runner.py:868-883 | a queue that is neither checked nor handed over |
| ProbeWorker.LostTaskExample | app/pool_probe_runner.py:795-806 | a task that two samples lose |
| RecoveryGate.RouteState.RequiredRouteRecovery | app/failover_services.py:75-108 | one call, step by step |
| RecoveryGate.EverySwitchIsJustified | app/failover_services.py:75-108 | every switch follows three failed verdicts of one service with no other between, spaced, within the window if the service has a name, and a cooldown after any switch before |
| RecoveryGate.SwitchStartsAnew | app/failover_services.py:75-108 | behind a switch the count starts anew: two failed verdicts come before the next candidate is asked for, whatever the identities and services |
| RecoveryGate.ThreeFailuresSwitch | app/failover_services.py:97-108 | of three failed verdicts in a row, spaced and within the window, the first that is not just counted has its candidate tried, and there is one exactly if no running series is outgrown meanwhile |
| RecoveryGate.OutgrownSeriesExample | app/failover_services.py:97-103 | four failures in a row, the last three close together, that do not switch |
| RecoveryGate.WindowIsEnforced | app/failover_services.py:97-99 | the window is enforced exactly if the series has a recorded start or begins |
| RecoveryGate.NamelessServiceExample | app/failover_services.py:93-99 | three nameless failures an hour apart switch |
| FailoverTrigger.FailoverState.ForgetFailures | app/auto_failover_runtime.py:149-152 | the count starts anew |
| FailoverTrigger.FailoverState.Prime | app/bot.py:950-973 | a failed call outside the checks: forced, the count preset, the grace period over |
| FailoverTrigger.FailoverState.Clear | app/bot.py:1799-1808 | nothing is counted and nothing forced |
| FailoverTrigger.FailoverState.Check | app/auto_failover_runtime.py:112-328 | one call up to the switch phase, step by step |
| FailoverTrigger.EverySwitchIsAccounted | app/auto_failover_runtime.py:112-334 | in every run a count is the confirmed failures since it started anew plus what presets lent it, each a grace period apart unless a preset forced it, and a switch follows a first failure and as many confirmed ones as required exactly if no preset lent any |
| FailoverTrigger.PresetsLendLittle | app/bot.py:966-973 | however many presets there are, together they lend no more than the highest one |
| FailoverTrigger.CountedExactly | app/auto_failover_runtime.py:112-328 | a failure is noted, confirmed and switched for exactly on a due call whose check fails |
| FailoverTrigger.OtherwiseForgotten | app/auto_failover_runtime.py:112-328 | any sign of life starts the count anew; a call that is put off or learns nothing leaves everything as it was |
| FailoverTrigger.OneSwitchAtATime | app/auto_failover_runtime.py:112-334 | while a switch is under way every call is refused, until its phase is over |
| FailoverTrigger.PresetIsAtOnce | app/bot.py:950-973 | a preset makes the next due call ask for a confirmation at once and never lowers the count |
| FailoverTrigger.UnearnedSwitchExample | app/bot.py:950-973 | a run in which one confirmed failure switches although three are required |
| FailoverTrigger.PrimedFailureSwitches | app/bot.py:950-973 | behind a preset a single failed confirmation enters the switch |
| FailoverTrigger.PersistentFailureSwitches | app/auto_failover_runtime.py:276-328 | a failure that persists enters the switch on the required confirmation |
| Failover.FailoverRuntime.RestoreOriginalKey | app/auto_failover_runtime.py:362-379 | install, activate, mark, close, up to the step that fails |
| Failover.FailoverRuntime.TryCandidate | app/auto_failover_runtime.py:422-537 | one candidate: transaction, installation, confirmation, the restore of each failure, and the exceptions that nobody catches |
| Failover.FailoverRuntime.SwitchKey | app/auto_failover_runtime.py:332-550 | the candidate loop; in_progress is cleared on every exit |
| Failover.AttemptEnds | app/auto_failover_runtime.py:422-537 | one attempt ends verified, with the original key back, or with the transaction open |
| Failover.RejectedIsRestored | app/auto_failover_runtime.py:362-516 | whatever the reason for which a candidate is rejected, a restore that works puts the original key back, running and marked, and closes the transaction |
| Failover.RejectedElsewhere | app/auto_failover_runtime.py:362-516 | it touches no protocol but the original's and the candidate's, whose mark stays |
| Failover.OpenExactly | app/auto_failover_runtime.py:422-537 | exactly which attempts leave the transaction open |
| Failover.ExitExactly | app/auto_failover_runtime.py:422-537 | exactly which end in an exception and which in a switch |
| Failover.RestoreInOrder | app/auto_failover_runtime.py:362-379 | wherever a restore stops, what runs was installed and what is marked runs |
| Failover.InstallsExactly | app/auto_failover_runtime.py:422-516 | which attempts give the protocol the candidate's key, up to the restore |
| Failover.EveryRunEndsWell | app/auto_failover_runtime.py:357-550 | a verified candidate is installed, running and marked, or the transaction stays open, or the original protocol has its key back; at most the allowed number is installed |
| Failover.OpenHasReason | app/auto_failover_runtime.py:357-550 | a run leaves the transaction open only if one of its turns, or the restore behind the loop, did |
| Failover.AllRejectedIsRestored | app/auto_failover_runtime.py:357-550 | a run in which every candidate is rejected and every restore works ends with the original key installed, running and marked, and no open transaction |
| Failover.InstallsOnce | app/auto_failover_runtime.py:400-421 | a run installs given candidates only, and none twice |
| Failover.ConfirmedIsTaken | app/auto_failover_runtime.py:417-537 | a candidate that is confirmed after others failed is switched to |
| Failover.RestoredExactly | app/auto_failover_runtime.py:362-379 | every key is back exactly if no other protocol was left with a candidate's key |
| Failover.CrossProtocolExample | app/auto_failover_runtime.py:362-398 | a rolled-back candidate of another protocol stays installed |
| PostApply.PostApplyCoordinator.Schedule | app/post_apply_runtime.py:95-100 | the locked part of a call |
| PostApply.PostApplyCoordinator.ForgetWorker | app/post_apply_runtime.py:104-109 | the locked part after a failed start |
| PostApply.PostApplyCoordinator.TakeAll | app/post_apply_runtime.py:147-151 | the locked part of the loop |
| PostApply.PostApplyCoordinator.FinishWorker | app/post_apply_runtime.py:123-134 | the locked part of a worker's end |
| PostApply.EveryRunIsSound | app/post_apply_runtime.py:90-187 | in every interleaving only the registered worker is live, work waits only for a registered worker, and every newest call and every resume request is accounted for |
| PostApply.OneProbingThread | app/post_apply_runtime.py:143-187 | at most one thread is in the probing loop |
| PostApply.BatchIsNewest | app/post_apply_runtime.py:147-151 | a batch holds the newest call of each protocol and leaves none behind |
| PostApply.NothingIsLost | app/post_apply_runtime.py:90-187 | once all threads are done every newest call was taken and every resume answered, unless a start failed or the program stops |
| PostApply.WaitingIsServed | app/post_apply_runtime.py:90-141 | waiting work has a live worker unless that worker's start failed |
| PostApply.WorkerServes | app/post_apply_runtime.py:90-187 | from every reachable state of a program that goes on, the registered worker's own steps, with a successor's if it needs one, take all that waits, answer every request and leave the coordinator idle, if its threads start |
| PostApply.StoppedWorkerEnds | app/post_apply_runtime.py:111-145 | once the program stops a worker in its loop ends without taking more and still answers every request |
| PostApply.CallIsQueued | app/post_apply_runtime.py:90-100 | a call with an empty protocol or key is skipped, any other one replaces what waits for its protocol and has a worker |
| PostApply.DeadForGood | app/post_apply_runtime.py:123-136 | a successor that could not be started blocks the coordinator for good |
| PostApply.DeadSuccessorExample | app/post_apply_runtime.py:123-136 | a run that ends that way |
| Subscriptions.SplitPool | app/subscription_runtime.py:225-234 | kept and removed keys of the pool |
| Subscriptions.AddMissing | app/subscription_runtime.py:235-243 | fetched keys that are missing, at the end |
| Subscriptions.SyncSubscriptionKeys | app/subscription_runtime.py:211-245 | one sync, pass by pass |
| Subscriptions.SyncMeans | app/subscription_runtime.py:211-245 | exactly which keys the pool, the added, removed and managed lists hold, without repeats and with the added ones last |
| Subscriptions.SyncTwice | app/subscription_runtime.py:211-245 | repeating a sync changes nothing exactly if no placeholder was fetched |
| Subscriptions.PlaceholderExample | app/subscription_runtime.py:211-245 | a fetched placeholder is added anew by every repetition |
| Subscriptions.EveryRunKeepsManaged | app/subscription_runtime.py:211-346 | after any syncs and removals the pool holds every managed key of every source |
| Subscriptions.OnlyOwnKeysLeave | app/subscription_runtime.py:211-340 | a key leaves only if the synced source managed it and no other lists it |
| Subscriptions.UnlistedKeysLeave | app/subscription_runtime.py:211-340 | and such a key does leave |
| Subscriptions.RemovalForgets | app/subscription_runtime.py:310-346 | removing a source forgets it and nothing else: its keys stay in the pool |
| Subscriptions.DedupeKeyList | app/key_pool_store.py:53-62 | the first of each non-empty key, in order |
| Fingerprint.BytesDetermineTree | app/managed_state_snapshot.py:112-147 | the digested bytes tell a tree from every other one up to modes exactly if no link can be split at another colon under a name that keeps the listing order |
| Fingerprint.TellsApart | app/managed_state_snapshot.py:112-147 | two trees with the same bytes are the same up to modes if one of them has no such link |
| Fingerprint.OneSplitFits | app/managed_state_snapshot.py:123-134 | directories that are digested alike and begin differently: at least one of the links that differ keeps the order when it alone is split |
| Fingerprint.PlainTreesDiffer | app/managed_state_snapshot.py:112-147 | the bytes also tell trees in any order apart if the links of one have no colon, or no link of either has one in its path |
| Fingerprint.AmbiguousRecords | app/managed_state_snapshot.py:116-145 | a record shares its bytes with another one exactly if it is a link with a colon in its path or its target |
| Fingerprint.ConfusedWith | app/managed_state_snapshot.py:123-134 | the double of a tree with such a link: a file system can hold it, and it is visited in its own listing order |
| Fingerprint.RecordsDiffer | app/managed_state_snapshot.py:116-145 | a record's end is known from its beginning, whatever bytes a file holds |
| Fingerprint.TreesDiffer | app/managed_state_snapshot.py:120-147 | the records of a visit determine the tree, whatever follows from outside it |
| Fingerprint.ColonExample | app/managed_state_snapshot.py:123-128 | two trees with the same bytes |
| Fingerprint.TakenNameExample | app/managed_state_snapshot.py:123-134 | a link with a colon in its name whose only other name is taken: nothing is digested like that tree |
| StateSnapshot.ManagedState.BackupManagedState | app/managed_state_snapshot.py:236-268 | manifest and copies of the paths as they are |
| StateSnapshot.ManagedState.RestoreManagedState | app/managed_state_snapshot.py:389-410 | a snapshot that fails verification changes nothing, otherwise every item is restored in turn |
| StateSnapshot.BackupRestores | app/managed_state_snapshot.py:236-410 | backup of trees that nothing else is digested like (or of any trees if nothing ever has a colon in a link's path), any change to files and copies, restore: if it verifies, every managed path is exactly as it was, with modes, and no other path changes |
| StateSnapshot.RestoreIsExact | app/managed_state_snapshot.py:236-410 | a backup brings every managed tree back, whatever stands there at the restore, exactly if none of them has a double |
| StateSnapshot.UntouchedVerifies | app/managed_state_snapshot.py:271-322 | a snapshot whose copies nobody has touched verifies |
| StateSnapshot.RestoreTwice | app/managed_state_snapshot.py:389-410 | restoring any snapshot that verifies a second time changes nothing |
| StateSnapshot.RestoredMatches | app/managed_state_snapshot.py:351-410 | a restored item is exactly what the manifest says, in presence, digest and every mode, unless a tree with its digest but other paths stood there |
| StateSnapshot.RestoreCovers | app/managed_state_snapshot.py:271-410 | a snapshot that verifies has an item for every managed path, and its restore touches nothing else |
| StateSnapshot.WrongRestoreExample | app/managed_state_snapshot.py:389-410 | a verified restore that leaves the wrong tree |
| StateSnapshot.OwnModes | app/managed_state_snapshot.py:112-147 | the mode table gives every node its own mode back |
| Shadowsocks.RoundTrip | app/proxy_key_store.py:40-56 | printing and parsing give server, port, method and password back exactly if the server and port have no separator and the method no colon, for every byte string as password |
| Shadowsocks.WholeRoundTrip | app/proxy_protocols.py:291-312 | an address that is encoded as a whole gives its parts back exactly if the server has neither separator, the port no '@' and the method no colon |
| Shadowsocks.Ipv6Example | app/proxy_key_store.py:40-56 | an IPv6 server does not come back |
| Shadowsocks.DecodeEncode | app/proxy_protocols.py:294-294 | base64 decoding undoes encoding for every byte string |
| Shadowsocks.KnownTexts | app/proxy_protocols.py:294-294 | the encoder gives the known vectors of RFC 4648, section 10 |
| Alphabets.LetterIsListed | app/proxy_protocols.py:294-294 | the base64 letters are the capitals, the small letters, the digits, the dash and the underscore, in this order |
| Shadowsocks.PaddingRestored | app/proxy_protocols.py:294-294 | the stripped padding is exactly what the length restores |
| Shadowsocks.ParsedIsPrintable | app/proxy_protocols.py:281-312 | in either form of an address a parsed server has no colon and no '@', a port no '@' and a method no colon; with the host in the open neither has the start of a fragment or query |

## Left out

What the model takes for granted:

* Texts and digests are represented by the values they spell: JSON documents, fingerprints and signatures are taken to be
  injective, and a managed configuration to determine the logical one it was made from.
* File ownership, inodes, symbolic-link checks and file size limits other than the bundle's; a directory sync is part of
  the step it follows, so a rename that is undone by a power loss after its sync failed is not modelled.
* Process numbers are not reused within a run, and the thread lock inside a process behaves as documented.
* What an error message says; all errors of one kind are one outcome.

What a listed member says less than the code does:

- ProcessLock.ProcessRLock.Acquire: one non-blocking attempt; polling until a deadline is a sequence of the same attempts
  in `ProcessLock.EveryRunIsSound`.
- LiveRuntime.ProxyLiveRuntime.TryApply: resource and rate budgets, validation, the isolated probe, the ticket test and
  the Hysteria2 cache guard are refusals that can happen at their place, not conditions of their own; health evidence is
  one answer. That an apply succeeds is stated for an environment in which nothing fails or refuses.
- LiveRuntime.ProxyLiveRuntime.ApplyCold: the same; `restart` may or may not replace the process, and without faults it
  does, by one that has the handlers of the configuration on disk. The files that a cold apply leaves are stated for a
  receipt whose path is neither the key's nor the configuration's.
- LiveRuntime.ProxyLiveRuntime.RegisterControlledLoad: the Hysteria2 history and the attestation store only appear as a
  possible failure before the marker is cleared.
- ManagedConfig.RoutingIsPreserved: rule conditions are opaque, a balancer picks any outbound that its selector matches,
  and the flows of the API inbound are not followed.
- XrayCore.XrayApi.Observe: the inbounds and the rules of the snapshot; no command of the model changes them.
- LiveRuntime.ProxyLiveRuntime.ApplyUnchanged: the evidence, the plan made from it and the attestation are one answer.
- LiveRuntime.ProxyLiveRuntime.InspectControlledLoad: of managed_config's refusals those that the outbounds' tags decide;
  chained handlers, an existing API section and a conflicting port are refusals that can happen.
- LiveRuns.RecoverFilesBeforeStartup: the coordinator's step behind it is `ApplyCoordinator.ApplyCoordinator.RecoverAbandonedManual`.
- ConfigChange.OneKeyAsksForNoRestart: ports, log settings and the bodies of inbounds are functions of the options.
- ConfigChange.BuildIsValid: that every handler names a protocol is part of its body and not checked.
- ConfigRouting.EveryFlowIsRouted: which entries of a list match a flow's name, address or port is given with the flow.
- RouteOverlaps.OverlapSamples: which of several items with the same start come first in a sample list is left to the
  sorting, so samples are the first ones in the order the sweep finds them.
- DnsResponses.ParseResponse: the text form of an address is represented by its bytes; the filter of local addresses is
  stated on those.
- DnsQueue.ResolveQueue: of the statistics only the number of requests is stated; which entries are dropped when the cache
  file is written is left open, and the results about ages hold for any part that is written.
- DnsGenerator.Generator.GenerateRules: `render` is any function from inputs to rules; its parsing of route lines, the
  policy patterns and the wildcard rewriting are not modelled, nor is the content of the applied-daemon record: whether
  the daemon must be restarted and whether that works is one answer.
- ProbeWorker.ProbePass.Work: resource readings, waits and the memory cleanup are turns of a script; recorders do not
  raise; pending tasks are requeued in queue order, where the code's order is that of a set. A run is any finite script,
  so nothing says that waiting ends.
- FailoverTrigger.FailoverState.Check: the recent-success, startup and transient-failure tests are answers of the script,
  and so is whether the failing key is still the active one.
- Failover.FailoverRuntime.SwitchKey: the repair of the active endpoint before the loop and the choice among candidates
  are not modelled, nor exceptions out of that choice; all transaction callbacks are present.
- PostApply.EveryRunIsSound: what a probe does and how long a worker waits for resources.
- Subscriptions.SyncSubscriptionKeys: stripping white space, fetching, and the legacy record format.
- StateSnapshot.ManagedState.BackupManagedState: contents behind managed symbolic links.
- Fingerprint.BytesDetermineTree: the longest name and link target of a file system are not modelled, so the double of a
  tree whose split is longer than that may not exist on disk.
- StateSnapshot.ManagedState.RestoreManagedState: contents behind managed symbolic links, snapshot format 1, nested managed
  paths and a restore that is interrupted.
- Shadowsocks.RoundTrip: how the base64 decoder treats characters outside its alphabet and percent decoding are
  arbitrary functions; a stored `raw_uri` is returned as it is by the code and not followed.

Not modelled at all:

* `AttestationStore`, `plan_proxy_apply` and the Hysteria2 cache guard: records compared with a process and a generation;
  to the apply they are refusals.
* `RouteRecoveryGate`, `check_required` and the route contracts of `app/failover_services.py`: tables of services and the
  single questions asked of them.
* `_domain_suffix_issues`, `_file_network_overlap_issues` and `resolve_route_intersections`: reports over the same overlaps;
  reading kernel sets.
* `apply_service_route` and `repair_service_route_catalog_drift`: edits of text files of routes.
* `app/pool_probe_resume.py`, `app/pool_probe_controller.py`, `app/probe_cache.py`, `app/key_pool_store.py` beyond its list
  helpers, `app/router_health_runtime.py`, `app/route_quality.py`.
* Proxy address grammars other than Shadowsocks, the web and Telegram interfaces, the installer, sockets, subprocesses.
