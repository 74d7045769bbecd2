/** The VM manager, one call at a time (internal/core/vmm/manager.go). Overlapping calls are in module VmProtocol. */
module Manager {
  import opened Common
  import opened Addressing
  import opened Ipam
  import opened Leases
  import opened Lifecycle

  predicate ValidVmId(id: string) {
    id != "" && |id| <= 64 && forall c :: c in id ==> c !in "/\\:*?\"<>|"
  }

  /** The nine characters a name may not contain. */
  predicate Forbidden(c: char) {
    c == '/' || c == '\\' || c == ':' || c == '*' || c == '?' || c == '"' || c == '<' || c == '>' || c == '|'
  }

  /** The socket of a VM, in the directory for temporary files. */
  function SocketPath(dir: string, id: string): string {
    dir + "/firecracker-" + id + ".sock"
  }

  /** A name is legal exactly when it has 1 to 64 characters, none of them forbidden. Then the socket of the VM lies in
      the directory itself, and two VMs never share one. */
  lemma NameIsLegalWhen(dir: string, id: string, other: string)
    ensures ValidVmId(id) <==> 1 <= |id| <= 64 && forall k :: 0 <= k < |id| ==> !Forbidden(id[k])
    ensures ValidVmId(id) ==> forall k :: |dir| < k < |SocketPath(dir, id)| ==> SocketPath(dir, id)[k] != '/'
    ensures SocketPath(dir, id) == SocketPath(dir, other) ==> id == other
  {
    var start := dir + "/firecracker-";
    var p, q := SocketPath(dir, id), SocketPath(dir, other);
    assert p[|start|..|start| + |id|] == id && q[|start|..|start| + |other|] == other;
    if ValidVmId(id) {
      forall k | 0 <= k < |id| ensures !Forbidden(id[k]) { assert id[k] in id; }
      forall k | |dir| < k < |p| ensures p[k] != '/' {
        if |start| <= k < |start| + |id| { assert p[k] == id[k - |start|]; }
      }
    }
    if 1 <= |id| <= 64 && forall k :: 0 <= k < |id| ==> !Forbidden(id[k]) {
      forall c | c in id ensures c !in "/\\:*?\"<>|" {
        var k :| 0 <= k < |id| && id[k] == c;
      }
    }
  }

  // ---- what a call does to the VM it is about ----

  /** The lease Acquire would hand out now, if any. */
  function NextLease(p: Pool): (r: Option<Lease>) {
    match Allocated(p).1
    case Granted(s, c) => Some(Lease(s, c, [], false))
    case _ => None
  }

  function NewVm(l: Lease): Holdings {
    Holdings(Vm(Created, false), l, false)
  }

  datatype ProvisionEnv = ProvisionEnv(ctx: bool, configure: ConfigureEnv, start: StartEnv, stop: StopEnv)

  /** The end of a ProvisionVM that got past CreateVM: what the VM holds, whether the call succeeded,
      and whether the VM is still in the table. */
  datatype Provisioned = Provisioned(made: Holdings, ok: bool, resident: bool)

  function BringUp(l: Lease, e: ProvisionEnv): (r: Provisioned) {
    var (h1, configured) := ConfigureCall(NewVm(l), e.configure);
    var (h2, started) := if configured then StartCall(h1, e.start) else (h1, false);
    if started then Provisioned(h2, true, true)
    else
      var (h3, stopped) := StopCall(h2, e.stop);
      Provisioned(h3, false, !stopped)
  }

  /** The pool at the end of such a ProvisionVM; p is the pool after CreateVM. */
  function PoolAfterBringUp(p: Pool, l: Lease, e: ProvisionEnv): Pool {
    var h0 := NewVm(l);
    var (h1, configured) := ConfigureCall(h0, e.configure);
    var p1 := PoolAfterConfigure(p, h0, e.configure);
    var (h2, started) := if configured then StartCall(h1, e.start) else (h1, false);
    if started then p1 else PoolAfterStop(p1, h2, e.stop)
  }

  lemma ConfigureFreesOnce(p: Pool, l: Lease, e: ConfigureEnv)
    requires !l.released
    ensures var l' := ConfigureCall(NewVm(l), e).0.lease;
            && l'.subnet == l.subnet && l'.cid == l.cid
            && PoolAfterConfigure(p, NewVm(l), e) == if l'.released then Returned(p, GuestText(l.subnet), l.cid) else p
  {
  }

  lemma StopFreesOnce(p: Pool, h: Holdings, e: StopEnv)
    ensures PoolAfterStop(p, h, e) == if !h.lease.released && StopCall(h, e).0.lease.released
                                      then Returned(p, GuestText(h.lease.subnet), h.lease.cid) else p
    ensures h.lease.released ==> StopCall(h, e).0.lease.released
  {
  }

  lemma BringUpFreesOnce(p: Pool, l: Lease, e: ProvisionEnv)
    requires !l.released
    ensures PoolAfterBringUp(p, l, e) ==
            if BringUp(l, e).made.lease.released then Returned(p, GuestText(l.subnet), l.cid) else p
  {
    var (h1, configured) := ConfigureCall(NewVm(l), e.configure);
    var (h2, started) := if configured then StartCall(h1, e.start) else (h1, false);
    ConfigureFreesOnce(p, l, e.configure);
    assert h2.lease == h1.lease;
    StopFreesOnce(PoolAfterConfigure(p, NewVm(l), e.configure), h2, e.stop);
  }

  /** ProvisionVM leaves the pool exactly as it was when the lease ends up returned, order of the stacks included, and
      short of just the new pair otherwise. */
  lemma ProvisionRestoresPool(p: Pool, e: ProvisionEnv)
    requires PoolOk(p) && NextLease(p).Some?
    ensures var l := NextLease(p).value;
            PoolAfterBringUp(Allocated(p).0, l, e) ==
            if BringUp(l, e).made.lease.released then p else Allocated(p).0
  {
    ReturnUndoesAllocate(p);
    BringUpFreesOnce(Allocated(p).0, NextLease(p).value, e);
  }

  /** Nothing of the VM is left, or it stays in the table waiting for a retry. */
  ghost predicate Accounted(p: Provisioned) {
    if p.resident then p.made.vm.state == CleanupFailed else NothingOwed(p.made)
  }

  /** When no other call touches the VM meanwhile, a failed ProvisionVM accounts for all it acquired, or drops the entry
      with the lease still out: the second exactly when one of Configure's checks before its lock failed. */
  lemma ProvisionAccounts(l: Lease, e: ProvisionEnv)
    requires l.cleanup == [] && !l.released
    ensures var p := BringUp(l, e);
            && AtRest(p.made)
            && (p.ok <==> e.configure.checks && e.configure.tap && e.configure.firewall && e.configure.machine
                          && e.start.ok)
            && (p.ok ==> p.resident && p.made.vm == Vm(Running, true) && !p.made.lease.released)
            && (!p.ok ==> (Accounted(p) <==> e.configure.checks))
            && (!e.configure.checks ==> !p.ok && !p.resident && p.made == NewVm(l))
  {
    var h0 := NewVm(l);
    ConfigureKeepsRest(h0, e.configure);
    var (h1, configured) := ConfigureCall(h0, e.configure);
    StartKeepsRest(h1, e.start);
    var h2 := if configured then StartCall(h1, e.start).0 else h1;
    StopNeverAdds(h2, e.stop);
    if e.configure.checks && !configured { FailedConfigure(h0, e.configure); }
  }

  /** The states in which Stop has nothing to do and reports success at once: the VM is not up, or another call is in
      the middle of bringing it up or down. */
  predicate StopsEarly(s: State) {
    s == Created || s == Configuring || s == Starting || s == Stopping || s == Stopped
  }

  /** Whatever the VM's state, other calls in the middle of theirs included: a DestroyVM that reports success has
      returned the lease exactly when its Stop did not return early or the lease was back already. One that reports
      failure leaves the VM in CleanupFailed, and either way the VM owes no more than before. */
  lemma DestroyReturnsLease(h: Holdings, e: StopEnv)
    ensures EnterStop(h.vm).None? <==> StopsEarly(h.vm.state)
    ensures var (h', ok) := StopCall(h, e);
            && OwesNoMore(h, h')
            && (ok ==> (h'.lease.released <==> !StopsEarly(h.vm.state) || h.lease.released))
            && (ok && StopsEarly(h.vm.state) ==> h' == h)
            && (ok && !StopsEarly(h.vm.state) ==> h'.vm == Vm(Stopped, false) && !h'.socket)
            && (!ok ==> !StopsEarly(h.vm.state) && h'.vm.state == CleanupFailed)
  {
    RetainedAreSteps(h.lease.cleanup, e.fails);
    RetainedNoLonger(h.lease.cleanup, e.fails);
  }

  /** A retry by Reconcile ends with nothing owed exactly when every host step still owed succeeds;
      otherwise the VM stays in CleanupFailed and owes no more than before. */
  lemma RetryShrinks(h: Holdings, e: StopEnv)
    requires AtRest(h) && h.vm.state == CleanupFailed
    ensures var (h', ok) := StopCall(h, e);
            && AtRest(h') && OwesNoMore(h, h')
            && (ok <==> (h.vm.machine ==> e.vmm) && (!h.lease.released ==> !SomeFails(h.lease.cleanup, e.fails))
                        && e.socket)
            && (if ok then NothingOwed(h') else h'.vm.state == CleanupFailed)
  {
    StopNeverAdds(h, e);
    StopSucceedsWhen(h, e);
  }

  function RetryView(h: Holdings, e: StopEnv): Holdings {
    if h.vm.state == CleanupFailed then StopCall(h, e).0 else h
  }

  predicate RetryDrops(h: Holdings, e: StopEnv) {
    h.vm.state == CleanupFailed && StopCall(h, e).1
  }

  /** Reconcile part way: the VMs of `todo` are as they were, the other failed ones have been retried. */
  ghost predicate Swept(start: map<string, Holdings>, now: map<string, Holdings>, resident: set<string>,
                        todo: set<string>, errs: set<string>, host: string -> StopEnv) {
    && now.Keys == start.Keys && resident <= start.Keys
    && (forall x :: x in todo ==> x in start && start[x].vm.state == CleanupFailed)
    && (forall x :: x in start ==> now[x] == if x in todo then start[x] else RetryView(start[x], host(x)))
    && (forall x :: x in start ==> (x in resident <==> x in todo || !RetryDrops(start[x], host(x))))
    && (forall x :: x in errs <==> x in resident && x !in todo && start[x].vm.state == CleanupFailed)
  }

  lemma SweepStep(start: map<string, Holdings>, now: map<string, Holdings>, resident: set<string>,
                  todo: set<string>, errs: set<string>, host: string -> StopEnv, id: string)
    requires Swept(start, now, resident, todo, errs, host) && id in todo
    ensures var (h, ok) := StopCall(now[id], host(id));
            Swept(start, now[id := h], if ok then resident - {id} else resident, todo - {id},
                  if ok then errs else errs + {id}, host)
  {
  }

  /** Before the first retry. */
  lemma SweepBegins(start: map<string, Holdings>, found: set<string>, host: string -> StopEnv)
    requires forall x :: x in found <==> x in start && start[x].vm.state == CleanupFailed
    ensures Swept(start, start, start.Keys, found, {}, host)
    ensures FreedSubnets(start, found, host) == {} && FreedCIDs(start, found, host) == {}
  {
  }

  /** The pool is well formed and every unreturned lease holds a pair of its own that is in use. */
  ghost predicate Holding(p: Pool, all: map<string, Holdings>) {
    && PoolOk(p)
    && (forall x :: x in all && !all[x].lease.released ==>
          all[x].lease.subnet in p.usedSubnets && all[x].lease.cid in p.usedCIDs)
    && (forall x, y :: x in all && y in all && x != y && !all[x].lease.released && !all[y].lease.released ==>
          all[x].lease.subnet != all[y].lease.subnet && all[x].lease.cid != all[y].lease.cid)
  }

  /** The retry gives back a lease that was still out. */
  predicate RetryReturns(h: Holdings, e: StopEnv) {
    h.vm.state == CleanupFailed && !h.lease.released && StopCall(h, e).0.lease.released
  }

  /** The subnets and CIDs that the retries of all VMs but those of `todo` have given back. */
  function FreedSubnets(start: map<string, Holdings>, todo: set<string>, host: string -> StopEnv): set<nat> {
    set x | x in start && x !in todo && RetryReturns(start[x], host(x)) :: start[x].lease.subnet
  }

  function FreedCIDs(start: map<string, Holdings>, todo: set<string>, host: string -> StopEnv): set<nat> {
    set x | x in start && x !in todo && RetryReturns(start[x], host(x)) :: start[x].lease.cid
  }

  /** Reconcile part way, as the pool sees it: exactly the numbers of the leases given back have left use. */
  ghost predicate PoolSwept(before: Pool, p: Pool, start: map<string, Holdings>, now: map<string, Holdings>,
                            todo: set<string>, host: string -> StopEnv) {
    && Holding(p, now)
    && p.usedSubnets == before.usedSubnets - FreedSubnets(start, todo, host)
    && p.usedCIDs == before.usedCIDs - FreedCIDs(start, todo, host)
  }

  lemma StopKeepsHolding(p: Pool, now: map<string, Holdings>, id: string, e: StopEnv)
    requires Holding(p, now) && id in now && now[id].vm.state == CleanupFailed
    ensures var q := PoolAfterStop(p, now[id], e);
            && Holding(q, now[id := StopCall(now[id], e).0])
            && q.usedSubnets == p.usedSubnets - (if RetryReturns(now[id], e) then {now[id].lease.subnet} else {})
            && q.usedCIDs == p.usedCIDs - (if RetryReturns(now[id], e) then {now[id].lease.cid} else {})
  {
    if RetryReturns(now[id], e) { ReturnIsExact(p, now[id].lease.subnet, now[id].lease.cid); }
  }

  lemma PoolSweepStep(before: Pool, p: Pool, start: map<string, Holdings>, now: map<string, Holdings>,
                      todo: set<string>, host: string -> StopEnv, id: string)
    requires PoolSwept(before, p, start, now, todo, host)
    requires id in todo && id in start && id in now && now[id] == start[id] && start[id].vm.state == CleanupFailed
    ensures PoolSwept(before, PoolAfterStop(p, now[id], host(id)), start, now[id := StopCall(now[id], host(id)).0],
                      todo - {id}, host)
  {
    StopKeepsHolding(p, now, id, host(id));
    var back := RetryReturns(start[id], host(id));
    assert FreedSubnets(start, todo - {id}, host) ==
           FreedSubnets(start, todo, host) + if back then {start[id].lease.subnet} else {};
    assert FreedCIDs(start, todo - {id}, host) ==
           FreedCIDs(start, todo, host) + if back then {start[id].lease.cid} else {};
  }

  // ---- the objects ----

  /** The provisioning channel: a bounded count of tokens. */
  class Gate {
    const capacity: nat
    var tokens: nat

    constructor (capacity: nat)
      ensures this.capacity == capacity && tokens == 0
    {
      this.capacity := capacity;
      tokens := 0;
    }
  }

  lemma InsertThenRemove<V>(m: map<string, V>, id: string, v: V)
    requires id !in m
    ensures m[id := v] - {id} == m
  {
  }

  ghost predicate EntryOk(inst: Instance, id: string, pool: IPAMPool)
    reads inst, inst.network
  {
    inst.Valid() && inst.id == id && inst.network.pool == pool
  }

  /** Distinct entries are distinct objects with distinct allocations. */
  ghost predicate Spread(m: map<string, Instance>) {
    forall a, b :: a in m && b in m && a != b ==> m[a] != m[b] && m[a].network != m[b].network
  }

  ghost predicate Within(m: map<string, Instance>, all: map<string, Instance>) {
    forall x :: x in m ==> x in all && m[x] == all[x]
  }

  /** The instances hold what the map says. */
  ghost predicate Shows(all: map<string, Instance>, h: map<string, Holdings>)
    reads *
  {
    all.Keys == h.Keys && forall x :: x in all ==> all[x].View() == h[x]
  }

  class VmManager {
    const maxVMs: nat
    const pool: IPAMPool
    const provision: Gate
    var instances: map<string, Instance>

    constructor (maxVMs: int, maxProvision: int)
      ensures Valid() && instances == map[] && fresh(pool) && fresh(provision)
      ensures this.maxVMs == (if maxVMs <= 0 then 256 else maxVMs)
      ensures provision.capacity == (if maxProvision <= 0 then 8 else maxProvision) && provision.tokens == 0
      ensures PoolOk(pool.View())
    {
      this.maxVMs := if maxVMs <= 0 then 256 else maxVMs;
      provision := new Gate(if maxProvision <= 0 then 8 else maxProvision);
      instances := map[];
      pool := new IPAMPool();
    }

    ghost predicate Valid()
      reads *
    {
      && |instances| <= maxVMs
      && (forall id :: id in instances ==> EntryOk(instances[id], id, pool))
      && (forall a, b :: a in instances && b in instances && a != b ==> instances[a].network != instances[b].network)
    }

    /** CreateVM succeeds exactly when the name is legal and free, the table has room and a subnet is left. */
    method CreateVM(id: string) returns (inst: Instance?)
      requires Valid()
      modifies this, pool
      ensures Valid()
      ensures inst != null <==>
              && ValidVmId(id) && |old(instances)| < maxVMs && id !in old(instances)
              && NextLease(old(pool.View())).Some?
      ensures inst == null ==> instances == old(instances) && pool.View() == old(pool.View())
      ensures inst != null ==> fresh(inst) && fresh(inst.network) && instances == old(instances)[id := inst]
      ensures inst != null ==>
                && pool.View() == Allocated(old(pool.View())).0
                && inst.View() == NewVm(NextLease(old(pool.View())).value)
    {
      if !ValidVmId(id) { return null; }
      if |instances| >= maxVMs { return null; }
      if id in instances { return null; }
      var allocation := Allocation.Acquire(pool);
      if allocation == null { return null; }
      inst := new Instance(id, allocation);
      instances := instances[id := inst];
    }

    /** removeFailedVM: on a successful Stop the entry goes, if it still is this instance. */
    method RemoveFailedVM(id: string, inst: Instance, e: StopEnv) returns (ok: bool)
      requires Valid() && inst.Valid() && inst.network.pool == pool
      modifies this, inst, inst.network, pool
      ensures Valid()
      ensures (inst.View(), ok) == StopCall(old(inst.View()), e)
      ensures pool.View() == PoolAfterStop(old(pool.View()), old(inst.View()), e)
      ensures id in old(instances) && old(instances)[id] == inst ==>
                instances == if ok then old(instances) - {id} else old(instances)
      ensures !(id in old(instances) && old(instances)[id] == inst) ==> instances == old(instances)
    {
      ok := inst.Stop(e);
      if ok && id in instances && instances[id] == inst {
        instances := instances - {id};
      }
    }

    /** ProvisionVM after CreateVM: Configure, Start, and removal when either fails. */
    method BringUpVM(id: string, inst: Instance, e: ProvisionEnv, ghost l: Lease) returns (ok: bool)
      requires Valid() && id in instances && instances[id] == inst && inst.View() == NewVm(l)
      modifies this, inst, inst.network, pool
      ensures Valid()
      ensures inst.View() == BringUp(l, e).made && ok == BringUp(l, e).ok
      ensures pool.View() == PoolAfterBringUp(old(pool.View()), l, e)
      ensures instances == if BringUp(l, e).resident then old(instances) else old(instances) - {id}
    {
      ok := inst.Configure(e.configure);
      if ok {
        ok := inst.Start(e.start);
        if ok { return; }
      }
      var removed := RemoveFailedVM(id, inst, e.stop);
      ok := false;
    }

    /** CreateVM and what follows it; `made` is the instance CreateVM built, if it got that far. */
    method ProvisionAdmitted(id: string, e: ProvisionEnv) returns (inst: Instance?, ghost made: Instance?)
      requires Valid()
      modifies this, pool
      ensures Valid()
      ensures made != null <==>
              && ValidVmId(id) && |old(instances)| < maxVMs && id !in old(instances)
              && NextLease(old(pool.View())).Some?
      ensures made == null ==> inst == null && instances == old(instances) && pool.View() == old(pool.View())
      ensures made != null ==>
                var l := NextLease(old(pool.View())).value;
                var p := BringUp(l, e);
                && made.View() == p.made && inst == (if p.ok then made else null)
                && pool.View() == PoolAfterBringUp(Allocated(old(pool.View())).0, l, e)
                && instances == (if p.resident then old(instances)[id := made] else old(instances))
    {
      inst := CreateVM(id);
      made := inst;
      if inst != null {
        var ok := BringUpVM(id, inst, e, NextLease(old(pool.View())).value);
        InsertThenRemove(old(instances), id, made);
        if !ok { inst := null; }
      }
    }

    /** ProvisionVM gives its token back on every path. Past admission and CreateVM it does what BringUp says to a new
        VM and leaves every other entry alone; a pool in order is as before exactly when the lease ends up returned. */
    method ProvisionVM(id: string, e: ProvisionEnv) returns (inst: Instance?, ghost made: Instance?)
      requires Valid()
      modifies this, pool, provision
      ensures Valid() && provision.tokens == old(provision.tokens)
      ensures made != null <==>
              && old(provision.tokens) < provision.capacity && e.ctx
              && ValidVmId(id) && |old(instances)| < maxVMs && id !in old(instances)
              && NextLease(old(pool.View())).Some?
      ensures made == null ==> inst == null && instances == old(instances) && pool.View() == old(pool.View())
      ensures made != null ==>
                var p := BringUp(NextLease(old(pool.View())).value, e);
                && made.View() == p.made && inst == (if p.ok then made else null)
                && instances == (if p.resident then old(instances)[id := made] else old(instances))
                && (PoolOk(old(pool.View())) ==>
                      pool.View() == if p.made.lease.released then old(pool.View()) else Allocated(old(pool.View())).0)
    {
      inst, made := null, null;
      if provision.tokens >= provision.capacity { return; }
      provision.tokens := provision.tokens + 1;
      if e.ctx {
        inst, made := ProvisionAdmitted(id, e);
        if made != null && PoolOk(old(pool.View())) { ProvisionRestoresPool(old(pool.View()), e); }
      }
      provision.tokens := provision.tokens - 1;
    }

    method DestroyVM(id: string, e: StopEnv) returns (ok: bool)
      requires Valid()
      modifies this, pool
      modifies if id in instances then {instances[id]} else {}
      modifies if id in instances then {instances[id].network} else {}
      ensures Valid()
      ensures id !in old(instances) ==> !ok && instances == old(instances) && pool.View() == old(pool.View())
      ensures id in old(instances) ==>
                && (old(instances[id]).View(), ok) == StopCall(old(instances[id].View()), e)
                && pool.View() == PoolAfterStop(old(pool.View()), old(instances[id].View()), e)
                && instances == if ok then old(instances) - {id} else old(instances)
    {
      if id !in instances { return false; }
      var inst := instances[id];
      ok := RemoveFailedVM(id, inst, e);
    }

    /** One retry of Reconcile; the other instances it snapshotted keep their state. */
    method RetryOne(id: string, e: StopEnv, ghost all: map<string, Instance>, ghost now: map<string, Holdings>)
      returns (ok: bool)
      requires Valid() && Spread(all) && Within(instances, all) && id in instances && Shows(all, now)
      modifies this, pool, instances[id], instances[id].network
      ensures Valid() && Within(instances, all)
      ensures instances.Keys == if ok then old(instances.Keys) - {id} else old(instances.Keys)
      ensures ok == StopCall(now[id], e).1 && Shows(all, now[id := StopCall(now[id], e).0])
      ensures pool.View() == PoolAfterStop(old(pool.View()), now[id], e)
    {
      var inst := instances[id];
      ghost var r := StopCall(inst.View(), e).0;
      ok := RemoveFailedVM(id, inst, e);
      forall x | x in all ensures all[x].View() == now[id := r][x] {
        if x != id { assert all[x] != inst && all[x].network != inst.network; }
      }
    }

    /** The retry loop of Reconcile, over the VMs found in CleanupFailed. */
    method Sweep(found: set<string>, host: string -> StopEnv, ghost all: map<string, Instance>,
                 ghost start: map<string, Holdings>, ghost owned: set<object>)
      returns (errs: set<string>, ghost now: map<string, Holdings>)
      requires Valid() && Spread(all) && Within(instances, all) && Shows(all, start)
      requires forall x :: x in all ==> all[x] in owned && all[x].network in owned
      requires Swept(start, start, instances.Keys, found, {}, host)
      requires Holding(pool.View(), start) ==> PoolSwept(pool.View(), pool.View(), start, start, found, host)
      modifies this, pool, owned
      ensures Valid() && Within(instances, all) && Shows(all, now)
      ensures Swept(start, now, instances.Keys, {}, errs, host)
      ensures old(Holding(pool.View(), start)) ==> PoolSwept(old(pool.View()), pool.View(), start, now, {}, host)
    {
      errs, now := {}, start;
      var todo := found;
      ghost var before := pool.View();
      while todo != {}
        invariant Valid() && Within(instances, all) && Shows(all, now)
        invariant Swept(start, now, instances.Keys, todo, errs, host)
        invariant Holding(before, start) ==> PoolSwept(before, pool.View(), start, now, todo, host)
        decreases |todo|
      {
        var id :| id in todo;
        assert id in instances && instances[id] == all[id];
        SweepStep(start, now, instances.Keys, todo, errs, host, id);
        if Holding(before, start) { PoolSweepStep(before, pool.View(), start, now, todo, host, id); }
        var ok := RetryOne(id, host(id), all, now);
        now := now[id := StopCall(now[id], host(id)).0];
        if !ok { errs := errs + {id}; }
        todo := todo - {id};
      }
    }

    ghost function Views(): map<string, Holdings>
      reads *
    {
      map x | x in instances :: instances[x].View()
    }

    /** Reconcile retries every VM in CleanupFailed, drops those that are now clean, and touches no other. `host`
        answers for each VM and `errs` names the retries that failed. When the table's leases held their numbers before,
        they still do, and exactly the numbers of the leases given back have left use. */
    method Reconcile(host: string -> StopEnv, ghost owned: set<object>) returns (errs: set<string>)
      requires Valid()
      requires forall x :: x in instances ==> instances[x] in owned && instances[x].network in owned
      modifies this, pool, owned
      ensures Valid() && Within(instances, old(instances))
      ensures forall x :: x in old(instances) ==>
                && old(instances[x]).View() == RetryView(old(instances[x].View()), host(x))
                && (x in instances <==> !RetryDrops(old(instances[x].View()), host(x)))
      ensures forall x :: x in errs <==> x in instances && old(instances[x].state) == CleanupFailed
      ensures var before, start := old(pool.View()), old(Views());
              Holding(before, start) ==>
                && Holding(pool.View(), Views())
                && pool.View().usedSubnets == before.usedSubnets - FreedSubnets(start, {}, host)
                && pool.View().usedCIDs == before.usedCIDs - FreedCIDs(start, {}, host)
    {
      ghost var all := instances;
      ghost var start := Views();
      var found := set x | x in instances && instances[x].state == CleanupFailed;
      ghost var now;
      assert start.Keys == instances.Keys;
      SweepBegins(start, found, host);
      errs, now := Sweep(found, host, all, start, owned);
      assert forall x :: x in Views() ==> x in now && Views()[x] == now[x];
    }
  }
}
