# Shiyao: verified models of its resource and delivery protocols

Shiyao runs untrusted agent code in Firecracker microVMs. This project models, in Dafny 4.11, the parts of its control
plane where correctness depends on interleavings, retries and bookkeeping, and proves what they promise.

- **VM resources.** `Addressing`, `Ipam`, `Leases`, `Lifecycle` and `Manager` follow the address pool, the allocation with
  its retained cleanup steps, the eight-state instance and the VM manager, one call at a time, as classes proved against
  functions. `VmProtocol` is the same code under concurrency: any number of threads run CreateVM, ProvisionVM, DestroyVM,
  Reconcile, Configure, Start and Stop, and one step is one mutex section or one host call. The lock sections are the
  functions of `Lifecycle`, `Leases` and `Ipam`, shared by both views. `VmInvariant` states the invariant, `VmSteps` proves
  that eleven kinds of move keep it, `VmRuns` that every step is one of them, and `VmTheorems` what follows for every run.
  `VmRemoval` says what deleting a VM leaves behind when calls overlap, and `VmStrays` gives the runs in which something
  is. `VmHost` keeps a ledger of what is really on the host, apart from the code's own records, and proves the records
  true. `VmReconcile` says whom Reconcile stops and finds among other calls. `VmSolo` and `VmSweep` show that the calls of
  the protocol, undisturbed, are the sequential ones.
- **Transactional outbox.** `Outbox` is the table and its repository, `OutboxRelay` one relay, `OutboxProtocol` any number
  of relays that crash, lose database replies and take over each other's claims, over one clock and one broker.
  `OutboxInvariant` and `OutboxTheorems` prove accounting, delivery, content, locks, fencing and backoff over every run;
  `OutboxSolo` shows that a relay alone is the sequential one.
- **Firewall.** `Firewall` evaluates the nftables chain over the shared sets and compares it with a per-VM policy.
- **Command output.** `Streaming` follows output from the command's writes to the host's receiver.
- **Warm pool.** `WarmPool` follows instances between idle, leased and being reset.

Host calls (Firecracker, netlink, nft, the broker, the JSON and UUID libraries) are answers chosen from outside: a flag, a
set of failing steps, or an argument. Clocks are arguments in the sequential models and one monotone clock in
`OutboxProtocol`. `dafny verify dfyconfig.toml` checks the project.

## What the code does not promise

Some natural expectations are false of the code. Each has a lemma with an input that breaks it and one that says exactly
when it holds. The results of `Lifecycle` and `Manager` are about calls that do not overlap on a VM, except
`DestroyReturnsLease`, which covers every state a Stop can meet; those of the `Vm` modules are about all interleavings.

- A successful DestroyVM gives the lease back: when its Stop returns nil, the lease is back exactly if Stop did not return
  early or the lease was back already (`DestroyReturnsLease`, `EarlyReturnWhen`, `LateRemovalIsClean`). Stop returns early
  on a VM that was never configured (`DestroyBeforeConfigureLeaks`, without any overlap) and on one that another call is
  bringing up or down (`DestroyDuringConfigureStrands`). Call an instance settled when its lease is back, it has no machine
  and its state is Created, Configuring or Stopped; it then stays so (`SettledStays`). A remover about to take the instance
  lock, given its next two steps, takes an unsettled instance out of the table exactly when it finds one in an early
  state (`RemovalStrandsWhen`). Over whole runs nothing is ever left outside the table exactly when every deletion found
  its instance settled (`NothingStrandedWhen`), for which it suffices that no remover finds an unsettled instance in an
  early state (`CarefulRemovalsLeaveNothing`).
- A failed ProvisionVM accounts for everything it acquired: when no other call touches the VM, false exactly when one of
  Configure's checks before its lock fails (`ProvisionAccounts`). With an overlapping DestroyVM it can also fail with the
  checks passed (`CleanupFailureOutOfSight`); its removal is then one of those above.
- Cleanup failures remain visible in the manager: false in `CleanupFailureOutOfSight`, and only after an earlier removal
  by an early return (`CleanupFailuresAreVisible`), so never in the runs of `CarefulRemovalsLeaveNothing`; what was
  deleted does not come back (`DeletedForGood`).
- CleanupFirewall succeeds when nft does: false for a configuration that repeats an allowed port other than 8080, which
  validation accepts (`RepeatedPortBlocksCleanup`, `CleanupSucceedsWhen`).
- The warm pool stays within its capacity: false when Add runs during a reset (`CapacityCanBeExceeded`), by any number
  (`OverfilledByAnyNumber`); a run stays within it exactly when every admitted Add found room counting the resets
  (`StaysWithinWhen`), so also when none came during a reset (`NoLateAddStaysWithin`).
- A relay can settle what it claims: exactly when its owner name has no surrounding blanks and the broker's answer is not
  a permanent error with a blank code or text (`ClaimSettlesWhen`, `BlankedOwnerNeverSettles`, `BlankReasonIsRefused`).

The truncation marker does mean lost output for a command (`TruncatedMeansLoss`), because only non-empty pieces are
written. Write by itself would also set it on an empty write to an exactly full buffer (`EmptyWriteMarksFullBuffer`).

## Model

| member | source | states |
|---|---|---|
| Common.TrimSpaceSplits | shiyao/internal/platform/outbox/repository.go:44 | trimming takes away blanks at the two ends, all of them, and nothing else |
| Addressing.ParseIPIsExact | shiyao/internal/core/network/config.go:34-37 | the parser accepts exactly the printed texts of the addresses and reads each back to its address |
| Addressing.GuestRoundTrip | shiyao/internal/core/network/ipam.go:51-63 | the guest CIDR that Allocate prints for a subnet is parsed by Release back to that subnet, for all 256 subnets |
| Addressing.HostRoundTrip | shiyao/internal/core/network/ipam.go:51 | the gateway text parses to 172.16.subnet.1 |
| Ipam.IPAMPool.constructor | shiyao/internal/core/network/ipam.go:24-33 | the stacks are filled in ascending order, 0..255 and 3..1024, nothing is in use, and the first pair granted is 255 and 1024 |
| Ipam.IPAMPool.Allocate | shiyao/internal/core/network/ipam.go:35-55 | pops both stacks and marks both numbers, or refuses and changes nothing, as `Allocated` says |
| Ipam.IPAMPool.Release | shiyao/internal/core/network/ipam.go:57-74 | parses the address and frees each number only if it is in use, as `Returned` says |
| Ipam.AllocateIsFresh | shiyao/internal/core/network/ipam.go:38-49 | a granted pair was free and is now in use, both partitions survive, refusal means all 256 subnets are in use, and the CID exhaustion branch is unreachable |
| Ipam.ReturnIsExact | shiyao/internal/core/network/ipam.go:57-74 | returning a pair in use frees exactly that pair |
| Ipam.ReturnUndoesAllocate | shiyao/internal/core/network/ipam.go:35-74 | returning what was just allocated restores the pool exactly, order of the stacks included |
| Ipam.LastReturnedIsNextGranted | shiyao/internal/core/network/ipam.go:35-74 | the pair returned last is granted next, and granting it undoes the return exactly |
| Leases.Allocation.Acquire | shiyao/internal/core/network/allocation.go:22-31 | a new unreturned lease on a fresh pair, or nothing and an unchanged pool |
| Leases.Allocation.Setup | shiyao/internal/core/network/allocation.go:48-72 | records the cleanup steps of what was set up, in order, and refuses a released or already set up allocation |
| Leases.SetUpRecords | shiyao/internal/core/network/allocation.go:48-72 | the removal of the TAP is recorded exactly when it was made, that of the firewall entries exactly when they were too; success is both; a refused call changes nothing |
| Leases.Allocation.Release | shiyao/internal/core/network/allocation.go:76-99 | the loop keeps the failed steps last first, and the pool gets the numbers only when none failed |
| Leases.ReleaseOutcome | shiyao/internal/core/network/allocation.go:76-99 | the lease goes back exactly when no step fails, and otherwise keeps the failed steps, reversed |
| Leases.RetainedIsReversedFailures | shiyao/internal/core/network/allocation.go:83-91 | the retained list is the reverse of the failed subsequence, for every pattern of failures |
| Leases.RetainedMembers | shiyao/internal/core/network/allocation.go:83-91 | over distinct steps a step is retained exactly when it failed, and retained steps stay distinct |
| Leases.ReturnedInFirstCleanCall | shiyao/internal/core/network/allocation.go:76-99 | over any history of calls the lease is returned in the first call in which no step fails and in no other |
| Leases.SucceededStepNeverRunsAgain | shiyao/internal/core/network/allocation.go:85-91 | over any history a step that succeeded is never owed again, and one that failed is still owed |
| Lifecycle.Instance.Configure | shiyao/internal/core/vmm/instance.go:51-148 | Configure with its deferred rollback, including what it does to the pool |
| Lifecycle.Instance.Start | shiyao/internal/core/vmm/instance.go:150-191 | Start and its three failures |
| Lifecycle.Instance.Stop | shiyao/internal/core/vmm/instance.go:193-244 | Stop with its early return, its three teardown parts and its error cases |
| Lifecycle.ConfigureEffect | shiyao/internal/core/vmm/instance.go:51-148 | in every state: when Configure succeeds, and otherwise which cleanup steps, state and lease the rollback leaves |
| Lifecycle.StartEffect | shiyao/internal/core/vmm/instance.go:150-191 | in every state: what Start leaves, and that it does nothing unless the VM is configured |
| Lifecycle.StopEffect | shiyao/internal/core/vmm/instance.go:193-244 | in every state and for failures too: the machine goes off the record exactly when stopped, each step stays exactly when it failed, the lease is back exactly when none did, the socket goes exactly when removed |
| Lifecycle.FailedConfigure | shiyao/internal/core/vmm/instance.go:82-98 | a Configure that failed past its checks has either given the lease back and is Created, or still owes steps and is CleanupFailed; never a machine |
| Lifecycle.StopNeverAdds | shiyao/internal/core/vmm/instance.go:193-244 | Stop never adds to what the VM owes; success means an early return or nothing owed; failure means CleanupFailed |
| Lifecycle.StopSucceedsWhen | shiyao/internal/core/vmm/instance.go:193-244 | Stop succeeds exactly when it had nothing to do or every host step still owed succeeded |
| Manager.NameIsLegalWhen | shiyao/internal/core/vmm/firecracker.go:35-46 | which names are legal, and that sockets of legal names lie in the directory itself and are never shared |
| Manager.ProvisionAccounts | shiyao/internal/core/vmm/manager.go:103-142 | when no other call touches the VM: exactly when ProvisionVM succeeds, and that a failed one leaves nothing owed and no entry, or an entry in CleanupFailed, exactly when Configure's checks passed |
| Manager.ProvisionRestoresPool | shiyao/internal/core/vmm/manager.go:103-142 | ProvisionVM leaves the pool exactly as it was, order of the stacks included, when the lease ends up returned, and short of just the new pair otherwise |
| Manager.DestroyReturnsLease | shiyao/internal/core/vmm/manager.go:177-193 | whatever the VM's state: a DestroyVM that reports success has returned the lease exactly when its Stop did not return early or the lease was back already; a failed one leaves CleanupFailed; the VM never owes more than before |
| Manager.RetryShrinks | shiyao/internal/core/vmm/manager.go:144-175 | a Reconcile retry leaves nothing owed exactly when every owed host step succeeds, and otherwise owes no more than before |
| Manager.VmManager.CreateVM | shiyao/internal/core/vmm/manager.go:61-101 | succeeds exactly for a legal free name with room in the table and a subnet left, and otherwise changes nothing |
| Manager.VmManager.RemoveFailedVM | shiyao/internal/core/vmm/manager.go:132-142 | any instance of the pool, resident or not, is stopped; the entry goes exactly when Stop succeeded and it still is that instance; what the pool gets back |
| Manager.VmManager.ProvisionVM | shiyao/internal/core/vmm/manager.go:103-130 | the token is given back on every path; the new VM ends as `BringUp` says, no other entry changes, and a pool in order is as before exactly when the lease ends up returned |
| Manager.VmManager.DestroyVM | shiyao/internal/core/vmm/manager.go:177-193 | unknown names fail and change nothing; otherwise the VM is stopped, the pool gets back what Stop returned and the entry goes exactly on success |
| Manager.VmManager.Reconcile | shiyao/internal/core/vmm/manager.go:146-175 | every entry in CleanupFailed is retried and dropped exactly when clean, errors name the rest, no other entry is touched, and exactly the numbers of the leases given back leave use while the others stay held |
| VmSteps.MoveKeeps | shiyao/internal/core/vmm/instance.go:67-243 | each of the eleven kinds of atomic move keeps the invariant on pool, owners, table, sections, states, tokens and lock |
| VmRuns.StepIsMove | shiyao/internal/core/vmm/manager.go:61-193 | every step of every thread is such a move |
| VmRuns.AlwaysInv | shiyao/internal/core/vmm/manager.go:61-193 | the invariant holds after every schedule of any number of threads |
| VmTheorems.StateFieldIsMutex | shiyao/internal/core/vmm/instance.go:67-98 | in every reachable state a transitional state has exactly one thread in the section it names, and other states have none |
| VmTheorems.StartAlwaysFindsStarting | shiyao/internal/core/vmm/instance.go:182-187 | the "start completed in unexpected state" error is unreachable |
| VmTheorems.OnlyTheHolderLeaves | shiyao/internal/core/vmm/instance.go:193-243 | while a thread is in a section no step of another thread changes the instance |
| VmTheorems.EveryLeaseHasOneOwner | shiyao/internal/core/vmm/manager.go:61-101 | every unreturned allocation has exactly one owner: a CreateVM between Acquire and insertion, a resident VM, or a VM removed after an early return of Stop |
| VmTheorems.NumbersInUse | shiyao/internal/core/network/allocation.go:76-99 | a subnet or CID is in use exactly when an unreturned allocation holds it, and then just one does |
| VmTheorems.PoolStaysWhole | shiyao/internal/core/network/ipam.go:24-74 | in every interleaving the stacks and in-use sets partition their ranges and the CID branch is unreachable |
| VmTheorems.LeasesOnlyEnd | shiyao/internal/core/network/allocation.go:76-99 | no step forgets, renumbers or revives a lease, a step returns only the lease its thread has in hand, and a late or repeated Release never frees numbers of an unreturned one |
| VmTheorems.StateMeansResources | shiyao/internal/core/vmm/instance.go:142-146 | Configured, Starting and Running mean a machine, an unreturned lease and both cleanup steps; Stopped means no machine and a returned lease |
| VmTheorems.StoppedIsFinal | shiyao/internal/core/vmm/instance.go:242-243 | Stopped is never left, whatever runs afterwards |
| VmTheorems.TableWithinLimits | shiyao/internal/core/vmm/manager.go:62-108 | the table never exceeds MaxVMs, each name is legal and maps to an instance of that name, and at most MaxConcurrentProvision calls run |
| VmTheorems.OnlyTheStopperDeletes | shiyao/internal/core/vmm/manager.go:132-193 | an entry changes only by deletion, only by the thread whose Stop of that very instance has just returned nil |
| VmTheorems.LosingCreateReturnsLease | shiyao/internal/core/vmm/manager.go:82-92 | a CreateVM that loses the recheck returns its lease and both numbers, whatever fails |
| VmRemoval.UnsettledMeans | shiyao/internal/core/vmm/instance.go:193-244 | an instance is not settled exactly when its lease is out, it has a machine, or its teardown is under way or has failed |
| VmRemoval.EarlyReturnWhen | shiyao/internal/core/vmm/instance.go:195-198 | a remover's Stop goes straight on to the deletion exactly in the five states in which it has nothing to do |
| VmRemoval.LateRemovalIsClean | shiyao/internal/core/vmm/manager.go:132-142 | a remover whose Stop did its work has a stopped VM with no machine and a returned lease in hand |
| VmRemoval.SettledStays | shiyao/internal/core/vmm/instance.go:51-244 | no step of any thread unsettles an instance |
| VmRemoval.RemovalStrandsWhen | shiyao/internal/core/vmm/manager.go:132-142 | a remover about to take the instance lock takes an unsettled instance out of the table by its next two steps exactly when it finds one in an early state |
| VmRemoval.NothingStrandedWhen | shiyao/internal/core/vmm/manager.go:132-193 | over any run, outside the table nothing is ever left of an instance exactly when every deletion found its instance settled |
| VmRemoval.CarefulRemovalsLeaveNothing | shiyao/internal/core/vmm/manager.go:132-193 | if no remover's Stop returns early on an unsettled instance, then in every interleaving nothing is left outside the table, cleanup failures are visible in it, and every unreturned lease belongs to a CreateVM under way or a resident VM |
| VmRemoval.CleanupFailuresAreVisible | shiyao/internal/core/vmm/manager.go:144-145 | in every reachable state a VM in CleanupFailed is in the table, or an early return took it out before |
| VmRemoval.DeletedForGood | shiyao/internal/core/vmm/manager.go:132-193 | a deleted instance never comes back to the table, whatever runs afterwards |
| VmStrays.DestroyBeforeConfigureLeaks | shiyao/internal/core/vmm/instance.go:195-198 | the run of CreateVM and DestroyVM, one after the other, that empties the table with the lease still out |
| VmStrays.DestroyDuringConfigureStrands | shiyao/internal/core/vmm/instance.go:195-198 | the run in which DestroyVM and ProvisionVM both report success and the VM runs outside the table |
| VmStrays.CleanupFailureOutOfSight | shiyao/internal/core/vmm/manager.go:144-145 | the run that leaves a VM in CleanupFailed, with its machine and lease, outside the table |
| VmHost.NetworkRecordIsTrue | shiyao/internal/core/network/allocation.go:11-99 | after every run a TAP or firewall entry is on the host exactly when the step that removes it is on record; a returned allocation has left nothing |
| VmHost.MachineRecordIsTrue | shiyao/internal/core/vmm/instance.go:100-240 | after every run an instance that no call is in the middle of has a machine on the host exactly when it has one on record |
| VmHost.UpMeansFurnished | shiyao/internal/core/vmm/instance.go:142-191 | a configured or running VM has its TAP, firewall entries and machine on the host |
| VmHost.SettledLeavesNothing | shiyao/internal/core/vmm/manager.go:132-193 | a settled instance has no TAP, no firewall entry and no machine on the host |
| VmReconcile.FailingStays | shiyao/internal/core/vmm/instance.go:193-244 | a teardown once tried is never taken back by any step |
| VmReconcile.ReconcileSparesTheLiving | shiyao/internal/core/vmm/manager.go:146-175 | in every reachable state whatever Reconcile has collected, waits to stop or is stopping has a teardown that failed, is under way or is done; it goes to work only on CleanupFailed |
| VmReconcile.TableStands | shiyao/internal/core/vmm/manager.go:147-159 | the table does not change while a scan holds the lock |
| VmReconcile.ScanFindsEveryFailure | shiyao/internal/core/vmm/manager.go:152-158 | a finished scan has collected every entry that was in CleanupFailed throughout, whatever ran meanwhile |
| VmSolo.StopAloneIsStopCall | shiyao/internal/core/vmm/instance.go:193-244 | the protocol's Stop steps, run without interference for any caller, give exactly the sequential Stop, pool included |
| VmSolo.RemoveAloneIsStopCall | shiyao/internal/core/vmm/manager.go:132-193 | Stop and deletion, run without interference, by DestroyVM, Reconcile or a failed ProvisionVM, give exactly the sequential removal |
| VmSolo.ConfigureAloneIsConfigureCall | shiyao/internal/core/vmm/instance.go:67-147 | the protocol's Configure steps, run without interference, give exactly the sequential Configure with its rollback |
| VmSolo.StartAloneIsStartCall | shiyao/internal/core/vmm/instance.go:150-191 | the protocol's Start steps, run without interference, give exactly the sequential Start |
| VmSolo.ProvisionAloneIsBringUp | shiyao/internal/core/vmm/manager.go:117-142 | ProvisionVM past CreateVM, run without interference, ends exactly as the sequential one, for VM, pool and table |
| VmSweep.CreateAloneIsCreateVM | shiyao/internal/core/vmm/manager.go:66-101 | CreateVM past its name check, run without interference, inserts or refuses exactly as the sequential one |
| VmSweep.DestroyAloneIsDestroyVM | shiyao/internal/core/vmm/manager.go:177-193 | DestroyVM, run without interference, is exactly the sequential one, unknown names included |
| VmSweep.ReconcileAloneIsReconcile | shiyao/internal/core/vmm/manager.go:146-175 | Reconcile, run without interference, gives every entry what the sequential one gives it, in any order of scanning |
| Outbox.Repository.EnqueueEvent | shiyao/internal/platform/outbox/repository.go:236-280 | which events are refused, by code, key or schema, and the row an accepted one gets |
| Outbox.EnqueueAcceptsWhen | shiyao/internal/platform/outbox/repository.go:242-280 | exactly which events are accepted, and that the stored row carries what was given, pending, due when the caller says, with zero counters |
| Outbox.Repository.Select | shiyao/internal/platform/outbox/repository.go:56-66 | only open, due, unlocked or stale rows are picked, within the limit; one is passed over only at the limit and only for rows due before it, or with it and made no later |
| Outbox.Repository.ClaimBatch | shiyao/internal/platform/outbox/repository.go:40-123 | its three refusals; otherwise a right pick is locked from now for the trimmed owner with one attempt more and returned, each row once, as updated; no other row changes |
| Outbox.ClaimColumns | shiyao/internal/platform/outbox/repository.go:67-71 | a claim sets lock time, lock owner and attempts, and keeps every other column |
| Outbox.Repository.MarkPublished | shiyao/internal/platform/outbox/repository.go:125-148 | the guarded update and ErrClaimLost |
| Outbox.Repository.ReleaseEvent | shiyao/internal/platform/outbox/repository.go:151-175 | the guarded update and ErrClaimLost |
| Outbox.Repository.QuarantineEvent | shiyao/internal/platform/outbox/repository.go:177-209 | blank codes and reasons are refused; the guarded update and ErrClaimLost |
| Outbox.Repository.RedriveEvent | shiyao/internal/platform/outbox/repository.go:211-234 | the guarded update and ErrNotQuarantined |
| Outbox.MarkColumns | shiyao/internal/platform/outbox/repository.go:130-135 | what MarkPublished sets and keeps, column by column |
| Outbox.ReleaseColumns | shiyao/internal/platform/outbox/repository.go:157-163 | what Release sets and keeps, column by column |
| Outbox.QuarantineColumns | shiyao/internal/platform/outbox/repository.go:188-196 | what Quarantine sets and keeps, column by column: which gets the code and which the reason |
| Outbox.RedriveColumns | shiyao/internal/platform/outbox/repository.go:216-222 | what Redrive sets and keeps, column by column |
| Outbox.StatementsAreGuarded | shiyao/internal/platform/outbox/repository.go:136-226 | each of the four statements goes through exactly under its guard, and changes its own row alone |
| Outbox.RedriveUndoesQuarantine | shiyao/internal/platform/outbox/repository.go:177-234 | redriving a quarantined event leaves it as a release at that time would, but for the redrive count |
| Outbox.OneStatus | shiyao/migrations/010_create_outbox.sql:28-44 | a well-formed row is in exactly one of pending, claimed, published and quarantined |
| OutboxRelay.Classify | shiyao/internal/platform/outbox/publisher.go:30-45 | permanent wins over retryable, each exactly when the error says so; the code is the error's own when it has one and otherwise "unknown" |
| OutboxRelay.DelayBounds | shiyao/internal/platform/outbox/relay.go:69-77 | the delay doubles, is monotone in the failures and lies in 1..1024 seconds |
| OutboxRelay.SettleOne | shiyao/internal/platform/outbox/relay.go:46-67 | a publish result is recorded exactly when the claim is still held and the record is not refused; no other row changes |
| OutboxRelay.SettledAsAnswered | shiyao/internal/platform/outbox/relay.go:46-67 | what each answer makes of a claimed event: published now, quarantined under code and text, or pending again after the delay |
| OutboxRelay.UndisturbedRunSettles | shiyao/internal/platform/outbox/relay.go:38-43 | an undisturbed RunOnce settles its events in order as the broker answered, up to the first answer Quarantine refuses; the rest stay claimed as they were and no other row changes |
| OutboxRelay.ClaimSettlesWhen | shiyao/internal/platform/outbox/repository.go:44-207 | a claimed event can be settled by its claimer exactly when the owner name has no surrounding blanks and Quarantine does not refuse the answer |
| OutboxRelay.BlankReasonIsRefused | shiyao/internal/platform/outbox/repository.go:177-187 | a permanent error with a blank text is refused and the event stays claimed |
| OutboxRelay.Relay.ProcessEvent | shiyao/internal/platform/outbox/relay.go:46-67 | the three ways to settle an event |
| OutboxRelay.Relay.RunOnce | shiyao/internal/platform/outbox/relay.go:26-44 | its refusals; otherwise a right pick of at most 100 rows, unlocked or locked over a minute, is claimed and settled in order, each event at its own times, until something fails |
| OutboxProtocol.StepOnRow | shiyao/internal/platform/outbox/repository.go:67-226 | rows never vanish and change only by a claim, a settlement that goes through or a redrive, as `RowAfter` says |
| OutboxProtocol.ClaimsAreBatches | shiyao/internal/platform/outbox/repository.go:56-66 | the claims of the protocol are exactly those ClaimBatch can make with some rows skipped as locked |
| OutboxInvariant.StepKeeps | shiyao/internal/platform/outbox/relay.go:26-67 | every step keeps the row, run, ticket, log and publication invariants, under crashes and lost replies |
| OutboxTheorems.EveryClaimIsAccountedFor | shiyao/internal/platform/outbox/repository.go:55-200 | in every reachable state attempts are failures plus held plus published plus takeovers, the schema holds and the row has exactly one status |
| OutboxTheorems.AtLeastOnceWithinAttempts | shiyao/internal/platform/outbox/relay.go:55-58 | a published event was stored by the broker, and Publish calls for an event never exceed its attempts |
| OutboxTheorems.PublishedIsFinal | shiyao/internal/platform/outbox/repository.go:129-226 | a published row never changes again in any run |
| OutboxTheorems.EventsAreImmutable | shiyao/internal/platform/outbox/repository.go:67-226 | what an event says and when it was made never changes, in any run |
| OutboxTheorems.DeliveredAsEnqueued | shiyao/internal/platform/outbox/relay.go:55 | every message given to the broker says exactly what was enqueued under its identifier |
| OutboxTheorems.ClaimLocksForAMinute | shiyao/internal/platform/outbox/repository.go:59-71 | after a claim, until a minute has passed or it is settled, the row stays as claimed and no claim takes it again, whatever runs |
| OutboxTheorems.LostStaysLost | shiyao/internal/platform/outbox/repository.go:136-207 | an owner that lost a row gets ErrClaimLost and changes nothing, along any run, until a claim takes the row for it again |
| OutboxTheorems.TakeoverDispossesses | shiyao/internal/platform/outbox/repository.go:62-73 | a takeover by another owner ends the old holder's claim |
| OutboxTheorems.TakeoverNeedsAge | shiyao/internal/platform/outbox/relay.go:34 | a claim over a holder comes more than a minute after its lock |
| OutboxTheorems.BlankedOwnerNeverSettles | shiyao/internal/platform/outbox/repository.go:44 | in every reachable state an owner with surrounding blanks settles nothing |
| OutboxTheorems.OnlyTheLatestClaimSettles | shiyao/internal/platform/outbox/repository.go:136-207 | with one RunOnce at a time per owner, what is settled is the very claim the run made |
| OutboxTheorems.AbandonedRowsComeBack | shiyao/internal/platform/outbox/repository.go:59-62 | a due open row, unlocked or a minute past its lock, can be claimed by any relay with a non-blank owner |
| OutboxTheorems.BackoffHolds | shiyao/internal/platform/outbox/relay.go:65-66 | after a release with f failures computed at time t, the row does not change before t plus 2^min(f,10) seconds, whatever runs |
| OutboxSolo.DrainAloneIsSettleAll | shiyao/internal/platform/outbox/relay.go:38-43 | a relay alone settles its list as the sequential loop does, stopping at the first event it cannot settle |
| OutboxSolo.RunAloneIsRunOnce | shiyao/internal/platform/outbox/relay.go:26-44 | a whole RunOnce of the protocol, alone, is the sequential claim and loop |
| Firewall.IssuedIsValid | shiyao/internal/core/network/config.go:27-60 | which issued configurations are valid, and for nftables which TAP names, by length and characters; the gateway is never the metadata address |
| Firewall.ForeignGatewayIsInvalid | shiyao/internal/core/network/config.go:51-53 | a host address in another subnet than that of the guest is refused |
| Firewall.VMElements | shiyao/internal/core/network/nftables.go:105-116 | the loop yields the VM's elements in order |
| Firewall.ElementsAre | shiyao/internal/core/network/nftables.go:105-116 | exactly which elements a VM contributes |
| Firewall.AllowsTCPDestination | shiyao/internal/core/network/policy.go:8-19 | the search returns true exactly for an allowed port on the parsed gateway |
| Firewall.ChainMeetsPolicy | shiyao/internal/core/network/nftables.go:82-95 | over any set of live VMs the first-match chain gives every packet the verdict of the per-VM policy |
| Firewall.NewConnections | shiyao/internal/core/network/nftables.go:88-92 | new TCP passes exactly to contract destinations and the gateway's port 8080, new UDP exactly to the gateway's port 53, nothing else |
| Firewall.ProxyPortIsNotImplied | shiyao/internal/core/network/policy.go:8-19 | the chain lets every VM reach port 8080 of its gateway, while the contract grants it only when listed; no other address is reachable |
| Firewall.MetadataIsBlocked | shiyao/internal/core/network/nftables.go:88 | packets of VMs to 169.254.169.254 are dropped, on known connections too |
| Firewall.DeleteSucceeds | shiyao/internal/core/network/nftables.go:101-103 | a delete transaction goes through exactly when its elements are present and distinct, and removes just those |
| Firewall.Firewalls.SetupFirewall | shiyao/internal/core/network/nftables.go:39-54 | validation, creation of the table once, and one atomic add |
| Firewall.SetUpSucceedsWhen | shiyao/internal/core/network/nftables.go:39-54 | setup succeeds exactly for a valid configuration when the host does its part, the table being there or made; the VM then is live beside the others under its policy, and a failure changes no verdict |
| Firewall.Firewalls.CleanupFirewall | shiyao/internal/core/network/nftables.go:57-67 | validation and one atomic delete that a missing element aborts |
| Firewall.SharedSetsAreTheUnion | shiyao/internal/core/network/nftables.go:39-67 | after any proper sequence of setups and cleanups, failures included, the shared sets are the union of the live VMs' elements and every packet gets the verdict of the policy |
| Firewall.CleanupSucceedsWhen | shiyao/internal/core/network/nftables.go:57-67 | cleaning up a live VM succeeds exactly when the host does and its ports other than 8080 are distinct |
| Firewall.OtherVMsUnaffected | shiyao/internal/core/network/nftables.go:39-67 | a setup or cleanup, the first included, never changes the verdict on packets from other interfaces |
| Firewall.RepeatedPortBlocksCleanup | shiyao/internal/core/network/nftables.go:105-116 | a valid configuration with a repeated port can be set up and never cleaned up |
| Streaming.LimitedBuffer.Write | shiyao/cmd/guest-agent/main.go:219-235 | the truncating write, which always reports the full length |
| Streaming.CaptureIsLongestPrefix | shiyao/cmd/guest-agent/main.go:219-235 | the buffer holds the longest prefix that fits, and is marked exactly when something did not fit or a write came when it was full |
| Streaming.TruncatedMeansLoss | shiyao/cmd/guest-agent/main.go:176-183 | with non-empty writes the mark is there exactly when output was lost |
| Streaming.EmptyWriteMarksFullBuffer | shiyao/cmd/guest-agent/main.go:223-227 | Write by itself: an empty write to an exactly full buffer marks it with nothing lost |
| Streaming.ChunksCutData | shiyao/cmd/guest-agent/main.go:81-95 | the chunks join to the data, are non-empty and bounded, and are as few as possible |
| Streaming.StreamOne | shiyao/cmd/guest-agent/main.go:81-95 | the loop sends the frames of one stream as far as the connection takes them |
| Streaming.StreamResult | shiyao/cmd/guest-agent/main.go:79-102 | stdout frames, stderr frames and the terminal frame, cut where the connection fails |
| Streaming.ExecStream | shiyao/internal/core/vsock/client.go:71-90 | the reading loop with its checks and four endings |
| Streaming.ReaderIsSafe | shiyao/internal/core/vsock/client.go:71-90 | whatever the guest sends, the receiver sees a prefix of well-formed bounded frames of its request and version, and the next frame decides the ending |
| Streaming.StreamRoundTrip | shiyao/cmd/guest-agent/main.go:79-102 | all frames of an undisturbed stream pass the checks and reassemble to both outputs, stdout before stderr |
| Streaming.BrokenStreamGivesPrefix | shiyao/cmd/guest-agent/main.go:88-93 | a stream cut anywhere is reported as broken and delivered a prefix of each output |
| Streaming.OutputArrivesBounded | shiyao/internal/core/vsock/protocol.go:13-22 | each stream arrives as its longest prefix of at most 10 MiB plus the marker exactly on overflow, in at most 161 frames a stream and 323 in all |
| WarmPool.Warm.Add | shiyao/internal/core/vmm/pool.go:24-38 | its three refusals and the append |
| WarmPool.Warm.Checkout | shiyao/internal/core/vmm/pool.go:40-61 | its four refusals, which change nothing, and the move of the last idle instance to the lease |
| WarmPool.Warm.Checkin | shiyao/internal/core/vmm/pool.go:66-93 | the lease ends; the instance comes back only reset and running, and is evicted otherwise |
| WarmPool.AddAdmitsWhen | shiyao/internal/core/vmm/pool.go:24-38 | exactly when Add admits, and that it puts the instance on top |
| WarmPool.CheckoutGivesTop | shiyao/internal/core/vmm/pool.go:40-61 | exactly when Checkout leases, that it leases the top instance, and that no other lease or instance is touched |
| WarmPool.CheckinUndoesCheckout | shiyao/internal/core/vmm/pool.go:66-93 | ending a lease gives up what its checkout gave, and giving it back restores the pool |
| WarmPool.NoInstanceIsShared | shiyao/internal/core/vmm/pool.go:24-93 | in every interleaving with fresh Adds an instance is in exactly one of idle, one lease and one reset, and the total stays within capacity plus the Adds made during a reset |
| WarmPool.TotalIsConserved | shiyao/internal/core/vmm/pool.go:24-93 | instances come only by admitted Adds and go only by evictions, one at a time |
| WarmPool.StaysWithinWhen | shiyao/internal/core/vmm/pool.go:33-36 | over any run, the instances, resets included, never outnumber the capacity exactly when every admitted Add found room counting resets |
| WarmPool.NoLateAddStaysWithin | shiyao/internal/core/vmm/pool.go:33-36 | a run in which no Add is admitted during a reset stays within the capacity |
| WarmPool.OverfilledByAnyNumber | shiyao/internal/core/vmm/pool.go:70-93 | for every capacity and every n, some run with n Adds admitted during a reset ends with capacity plus n idle instances |
| WarmPool.CapacityCanBeExceeded | shiyao/internal/core/vmm/pool.go:70-93 | the schedule that leaves two idle instances in a pool of capacity one |

## Left out

- SetupTAP when both bring-up and removal fail: no cleanup step is recorded for that device, so setup of the TAP is taken to be all or nothing.
- Distinct TAP names: they come from a truncated hash; distinctness is a hypothesis of the firewall runs, not a result.
- JSON encoding: frames and payloads are values; bytes that are not ASCII, and characters split across frames, may be rewritten by the JSON library.
- IPv6 texts: `ParseIP` accepts dotted decimal only, so IPv4-mapped IPv6 texts, which validation would accept, are refused.
- Outbox columns updated_at and headers, the headers a relay adds to a message, and 32-bit overflow of counters.
- Clock skew between relays and database: `OutboxProtocol` has one monotone clock with microsecond ticks.
- Outbox.Repository.ClaimBatch: returns the rows in pick order, although the database promises no order for them; a header that cannot be decoded is, in `OutboxProtocol`, a claim whose reply is lost.
- Manager.VmManager.Reconcile: retries in an arbitrary order, as Go's map iteration does.
- Go's channel of provisioning tokens is a counter; context cancellation is one answer at the start of ProvisionVM.
- Snapshot checks, kernel arguments and MAC addresses inside Configure: one answer, success or failure.
- Sandbox service, worker consumers, identity, sessions, proxy, websocket, cloud and enterprise packages: thin, stubs or without invariants across calls.
