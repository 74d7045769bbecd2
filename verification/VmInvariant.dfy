/** What every step of the VM protocol keeps. */
module VmInvariant {
  import opened Common
  import opened Ipam
  import opened Leases
  import opened Lifecycle
  import opened Manager
  import opened VmProtocol

  // ---- what a thread stands for ----

  /** The unlocked middle section of Configure, Start or Stop a position belongs to: its instance and state. */
  function MidOf(pc: Pc): (m: Option<(Ref, State)>) {
    match pc
    case CfSetup(r, _) => Some((r, Configuring))
    case CfBuild(r, _) => Some((r, Configuring))
    case CfCommit(r, _) => Some((r, Configuring))
    case CfRelease(r, _) => Some((r, Configuring))
    case CfAbort(r, _, _) => Some((r, Configuring))
    case StCall(r, _) => Some((r, Starting))
    case StFail(r, _) => Some((r, Starting))
    case StDone(r, _) => Some((r, Starting))
    case SpKill(r, _, _) => Some((r, Stopping))
    case SpRelease(r, _, _) => Some((r, Stopping))
    case SpSocket(r, _, _, _) => Some((r, Stopping))
    case SpExit(r, _, _, _, _) => Some((r, Stopping))
    case _ => None
  }

  predicate Transitional(s: State) {
    s == Configuring || s == Starting || s == Stopping
  }

  /** The allocation a CreateVM call holds between Acquire and insertion. */
  function HeldOf(pc: Pc): (m: Option<Ref>) {
    match pc
    case CrInsert(_, net, _) => Some(net)
    case CrUndo(net, _) => Some(net)
    case _ => None
  }

  /** The position lies inside ProvisionVM, after it took its token. */
  predicate TokenOf(pc: Pc) {
    match pc
    case ProvGate(_) => true
    case ProvExit => true
    case CrCheck(_, prov) => prov
    case CrAcquire(_, prov) => prov
    case CrInsert(_, _, prov) => prov
    case CrUndo(_, prov) => prov
    case CfEnter(_, up) => up.Some?
    case CfSetup(_, up) => up.Some?
    case CfBuild(_, up) => up.Some?
    case CfCommit(_, up) => up.Some?
    case CfRelease(_, up) => up.Some?
    case CfAbort(_, up, _) => up.Some?
    case StEnter(_, up) => up.Some?
    case StCall(_, up) => up.Some?
    case StFail(_, up) => up.Some?
    case StDone(_, up) => up.Some?
    case SpEnter(_, k) => k.Undo?
    case SpKill(_, k, _) => k.Undo?
    case SpRelease(_, k, _) => k.Undo?
    case SpSocket(_, k, _, _) => k.Undo?
    case SpExit(_, k, _, _, _) => k.Undo?
    case Remove(_, k, _) => k.Undo?
    case _ => false
  }

  function Mid(w: World, t: Tid): (m: Option<(Ref, State)>) {
    if t in w.threads then MidOf(w.threads[t]) else None
  }

  function Held(w: World, t: Tid): (m: Option<Ref>) {
    if t in w.threads then HeldOf(w.threads[t]) else None
  }

  function Holders(w: World): (s: set<Tid>) {
    set t | t in w.threads && TokenOf(w.threads[t])
  }

  // ---- the invariant, part by part ----

  predicate LiveIn(ls: map<Ref, Lease>, a: Ref) {
    a in ls && !ls[a].released
  }

  predicate Live(w: World, a: Ref) {
    LiveIn(w.leases, a)
  }

  predicate LeaseOk(subnets: set<nat>, cids: set<nat>, l: Lease) {
    && (!l.released ==> l.subnet in subnets && l.cid in cids)
    && (l.released ==> l.cleanup == [])
  }

  /** Unreturned leases hold numbers in use, no two the same. */
  ghost predicate Exclusively(subnets: set<nat>, cids: set<nat>, ls: map<Ref, Lease>) {
    && (forall a: Ref :: a in ls ==> LeaseOk(subnets, cids, ls[a]) && NoDup(ls[a].cleanup))
    && (forall a: Ref, b: Ref :: LiveIn(ls, a) && LiveIn(ls, b) && a != b ==>
          ls[a].subnet != ls[b].subnet && ls[a].cid != ls[b].cid)
  }

  /** Every number in use is held by an unreturned lease. */
  ghost predicate Covered(subnets: set<nat>, cids: set<nat>, ls: map<Ref, Lease>) {
    && (forall s :: s in subnets ==> exists a: Ref :: LiveIn(ls, a) && ls[a].subnet == s)
    && (forall c :: c in cids ==> exists a: Ref :: LiveIn(ls, a) && ls[a].cid == c)
  }

  ghost predicate Booked(subnets: set<nat>, cids: set<nat>, ls: map<Ref, Lease>) {
    Exclusively(subnets, cids, ls) && Covered(subnets, cids, ls)
  }

  ghost predicate PoolInv(w: World) {
    PoolOk(w.pool) && Booked(w.pool.usedSubnets, w.pool.usedCIDs, w.leases)
  }

  ghost predicate OwnedByThread(w: World, a: Ref) {
    exists t: Tid :: Held(w, t) == Some(a)
  }

  ghost predicate OwnedByInst(w: World, a: Ref) {
    exists r: Ref :: r in w.insts && w.insts[r].net == a
  }

  ghost predicate OwnerInv(w: World) {
    && (forall r: Ref :: r in w.insts ==> w.insts[r].net in w.leases)
    && (forall r: Ref, q: Ref :: r in w.insts && q in w.insts && r != q ==> w.insts[r].net != w.insts[q].net)
    && (forall t: Tid :: Held(w, t).Some? ==> Live(w, Held(w, t).value) && w.leases[Held(w, t).value].cleanup == [])
    && (forall t: Tid, u: Tid :: t != u && Held(w, t).Some? ==> Held(w, t) != Held(w, u))
    && (forall t: Tid, r: Ref :: r in w.insts ==> Held(w, t) != Some(w.insts[r].net))
    && (forall a: Ref :: Live(w, a) ==> OwnedByThread(w, a) || OwnedByInst(w, a))
  }

  predicate InTable(w: World, r: Ref)
    requires r in w.insts
  {
    w.insts[r].id in w.table && w.table[w.insts[r].id] == r
  }

  ghost predicate TableInv(w: World) {
    && |w.table| <= w.maxVMs
    && (forall id :: id in w.table ==> ValidVmId(id) && w.table[id] in w.insts && w.insts[w.table[id]].id == id)
    && (forall r: Ref :: r in w.gone ==> r in w.insts && (!w.gone[r] ==> w.insts[r].vm.state == Stopped))
    && (forall r: Ref :: r in w.insts ==> (r in w.gone <==> !InTable(w, r)))
  }

  ghost predicate MidInv(w: World) {
    && (forall t: Tid :: Mid(w, t).Some? ==>
          Mid(w, t).value.0 in w.insts && w.insts[Mid(w, t).value.0].vm.state == Mid(w, t).value.1)
    && (forall t: Tid, u: Tid :: t != u && Mid(w, t).Some? && Mid(w, u).Some? ==>
          Mid(w, t).value.0 != Mid(w, u).value.0)
    && (forall r: Ref :: r in w.insts && Transitional(w.insts[r].vm.state) ==>
          exists t: Tid :: Mid(w, t) == Some((r, w.insts[r].vm.state)))
  }

  /** What the state field says about machine and lease. */
  predicate Shape(v: Vm, l: Lease) {
    match v.state
    case Created => !v.machine && l.cleanup == []
    case Configuring => !v.machine
    case Stopped => !v.machine && l.released
    case Stopping => true
    case CleanupFailed => true
    case _ => v.machine && !l.released && l.cleanup == [RemoveTap, RemoveFirewall]
  }

  ghost predicate ShapeInv(w: World) {
    forall r: Ref :: r in w.insts ==> w.insts[r].net in w.leases && Shape(w.insts[r].vm, w.leases[w.insts[r].net])
  }

  predicate Named(w: World, r: Ref, id: string) {
    r in w.insts && w.insts[r].id == id
  }

  predicate CallerOk(w: World, r: Ref, k: Caller) {
    match k
    case Direct => true
    case Undo(id) => Named(w, r, id)
    case Destroy(id) => Named(w, r, id)
    case Retry(id, rest) => Named(w, r, id) && forall x :: x in rest ==> Named(w, x.1, x.0)
  }

  predicate UpOk(w: World, r: Ref, up: Option<string>) {
    r in w.insts && (up.Some? ==> w.insts[r].id == up.value)
  }

  /** What a thread may rely on at its position. */
  predicate PcOk(w: World, pc: Pc) {
    match pc
    case CrCheck(id, _) => ValidVmId(id)
    case CrAcquire(id, _) => ValidVmId(id)
    case CrInsert(id, _, _) => ValidVmId(id)
    case CfEnter(r, up) => UpOk(w, r, up)
    case CfSetup(r, up) => UpOk(w, r, up) && w.insts[r].net in w.leases && w.leases[w.insts[r].net].cleanup == []
    case CfBuild(r, up) => UpOk(w, r, up) && Furnished(w, r)
    case CfCommit(r, up) => UpOk(w, r, up) && Furnished(w, r)
    case CfRelease(r, up) => UpOk(w, r, up)
    case CfAbort(r, up, clean) => UpOk(w, r, up) && ReleasedNet(w, r, clean)
    case StEnter(r, up) => UpOk(w, r, up)
    case StCall(r, up) => UpOk(w, r, up)
    case StFail(r, up) => UpOk(w, r, up)
    case StDone(r, up) => UpOk(w, r, up)
    case SpEnter(r, k) => r in w.insts && CallerOk(w, r, k)
    case SpKill(r, k, machine) => r in w.insts && CallerOk(w, r, k) && machine == w.insts[r].vm.machine
    case SpRelease(r, k, _) => r in w.insts && CallerOk(w, r, k)
    case SpSocket(r, k, _, released) => r in w.insts && CallerOk(w, r, k) && ReleasedNet(w, r, released)
    case SpExit(r, k, _, released, _) => r in w.insts && CallerOk(w, r, k) && ReleasedNet(w, r, released)
    case Remove(r, k, early) =>
      r in w.insts && !k.Direct? && CallerOk(w, r, k) && (!early ==> w.insts[r].vm.state == Stopped)
    case RcScan(todo, found) => todo <= w.table.Keys && forall x :: x in found ==> Named(w, x.1, x.0)
    case _ => true
  }

  predicate Furnished(w: World, r: Ref) {
    && r in w.insts && w.insts[r].net in w.leases
    && !w.leases[w.insts[r].net].released && w.leases[w.insts[r].net].cleanup == [RemoveTap, RemoveFirewall]
  }

  predicate ReleasedNet(w: World, r: Ref, released: bool) {
    r in w.insts && w.insts[r].net in w.leases && released == w.leases[w.insts[r].net].released
  }

  ghost predicate PcInv(w: World) {
    forall t: Tid :: t in w.threads ==> PcOk(w, w.threads[t])
  }

  ghost predicate TokenInv(w: World) {
    w.tokens == |Holders(w)| <= w.maxProvision
  }

  ghost predicate LockInv(w: World) {
    forall t: Tid :: w.lock == Some(t) <==> t in w.threads && w.threads[t].RcScan?
  }

  ghost predicate Inv(w: World) {
    PoolInv(w) && OwnerInv(w) && TableInv(w) && MidInv(w) && ShapeInv(w) && PcInv(w) && TokenInv(w) && LockInv(w)
  }

  lemma InitInv(w: World)
    requires Init(w)
    ensures Inv(w)
  {
    assert Holders(w) == {};
  }
}
