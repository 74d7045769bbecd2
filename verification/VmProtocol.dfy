/** The VM manager and its instances under concurrency (internal/core/vmm/manager.go, instance.go).

    Any number of threads run CreateVM, ProvisionVM, DestroyVM, Reconcile, and Configure, Start or Stop on any instance.
    A thread is where it stands in its call; a step runs one mutex section or one host call of one thread. */
module VmProtocol {
  import opened Common
  import opened Ipam
  import opened Leases
  import opened Lifecycle
  import opened Manager

  type Tid = nat
  /** The address of an allocation or of an instance. */
  type Ref = nat
  type Item = (string, Ref)

  datatype Inst = Inst(id: string, net: Ref, vm: Vm)

  /** Who called Stop, hence what follows it. */
  datatype Caller = Direct | Undo(id: string) | Destroy(id: string) | Retry(id: string, rest: seq<Item>)

  datatype Pc =
    // ProvisionVM around CreateVM: a token is held
    | ProvGate(id: string) | ProvExit
    // CreateVM; prov says that ProvisionVM called it
    | CrCheck(id: string, prov: bool) | CrAcquire(id: string, prov: bool)
    | CrInsert(id: string, net: Ref, prov: bool) | CrUndo(net: Ref, prov: bool)
    // Configure and Start; up is the VM name when ProvisionVM called them
    | CfEnter(r: Ref, up: Option<string>) | CfSetup(r: Ref, up: Option<string>) | CfBuild(r: Ref, up: Option<string>)
    | CfCommit(r: Ref, up: Option<string>) | CfRelease(r: Ref, up: Option<string>)
    | CfAbort(r: Ref, up: Option<string>, clean: bool)
    | StEnter(r: Ref, up: Option<string>) | StCall(r: Ref, up: Option<string>)
    | StFail(r: Ref, up: Option<string>) | StDone(r: Ref, up: Option<string>)
    // Stop
    | SpEnter(r: Ref, k: Caller) | SpKill(r: Ref, k: Caller, machine: bool)
    | SpRelease(r: Ref, k: Caller, stopped: bool)
    | SpSocket(r: Ref, k: Caller, stopped: bool, released: bool)
    | SpExit(r: Ref, k: Caller, stopped: bool, released: bool, socketGone: bool)
    // deletion from the table after a Stop that returned nil, by its early return or not
    | Remove(r: Ref, k: Caller, early: bool)
    // DestroyVM and Reconcile
    | DsLookup(id: string) | RcLock | RcScan(todo: set<string>, found: seq<Item>)

  datatype World = World(
    maxVMs: nat, maxProvision: nat,
    pool: Pool, leases: map<Ref, Lease>, insts: map<Ref, Inst>, table: map<string, Ref>,
    /** instances deleted from the table, and whether that followed an early return of Stop */
    gone: map<Ref, bool>,
    /** the thread inside Reconcile's scan, which keeps the manager lock between steps */
    lock: Option<Tid>,
    tokens: nat, threads: map<Tid, Pc>)

  datatype Call = CallCreate(id: string) | CallProvision(id: string) | CallDestroy(id: string) | CallReconcile
                | CallConfigure(r: Ref) | CallStart(r: Ref) | CallStop(r: Ref)

  /** What the surroundings decide in one step: host answers, failing cleanup steps, fresh addresses, map order. */
  datatype Env = Env(ok: bool, ok2: bool, fails: set<nat>, newRef: Ref, pick: string)

  datatype Event = Begin(t: Tid, call: Call) | Run(t: Tid, env: Env)

  // ---- control ----

  function Put(w: World, t: Tid, pc: Option<Pc>): World {
    w.(threads := match pc case Some(p) => w.threads[t := p] case None => w.threads - {t})
  }

  function SetVm(w: World, r: Ref, v: Vm): World
    requires r in w.insts
  {
    w.(insts := w.insts[r := w.insts[r].(vm := v)])
  }

  /** The entry of instance r is deleted; early says that the remover's Stop returned early. */
  function Removed(w: World, id: string, r: Ref, early: bool): World {
    w.(table := w.table - {id}, gone := w.gone[r := early])
  }

  function NextRetry(rest: seq<Item>): (r: Option<Pc>) {
    if rest == [] then None else Some(SpEnter(rest[0].1, Retry(rest[0].0, rest[1..])))
  }

  function AfterCreateFails(prov: bool): Option<Pc> {
    if prov then Some(ProvExit) else None
  }

  function AfterConfigure(r: Ref, up: Option<string>, ok: bool): Option<Pc> {
    match up
    case None => None
    case Some(id) => Some(if ok then StEnter(r, up) else SpEnter(r, Undo(id)))
  }

  function AfterStart(r: Ref, up: Option<string>, ok: bool): Option<Pc> {
    match up
    case None => None
    case Some(id) => Some(if ok then ProvExit else SpEnter(r, Undo(id)))
  }

  function AfterStop(r: Ref, k: Caller, ok: bool, early: bool): Option<Pc> {
    if k.Direct? then None else if ok then Some(Remove(r, k, early)) else AfterRemove(k)
  }

  function AfterRemove(k: Caller): Option<Pc> {
    match k
    case Undo(_) => Some(ProvExit)
    case Retry(_, rest) => NextRetry(rest)
    case _ => None
  }

  // ---- the steps ----

  function BeginStep(w: World, t: Tid, call: Call): (r: World) {
    if t in w.threads then w
    else match call
      case CallCreate(id) => if ValidVmId(id) then Put(w, t, Some(CrCheck(id, false))) else w
      case CallProvision(id) =>
        if w.tokens < w.maxProvision then Put(w.(tokens := w.tokens + 1), t, Some(ProvGate(id))) else w
      case CallDestroy(id) => Put(w, t, Some(DsLookup(id)))
      case CallReconcile => Put(w, t, Some(RcLock))
      case CallConfigure(r) => if r in w.insts then Put(w, t, Some(CfEnter(r, None))) else w
      case CallStart(r) => if r in w.insts then Put(w, t, Some(StEnter(r, None))) else w
      case CallStop(r) => if r in w.insts then Put(w, t, Some(SpEnter(r, Direct))) else w
  }

  function ProvisionStep(w: World, t: Tid, pc: Pc, e: Env): (r: World)
    requires pc.ProvGate? || pc.ProvExit?
  {
    match pc
    case ProvGate(id) => Put(w, t, Some(if e.ok && ValidVmId(id) then CrCheck(id, true) else ProvExit))
    case ProvExit => if w.tokens > 0 then Put(w.(tokens := w.tokens - 1), t, None) else w
  }

  function CreateStep(w: World, t: Tid, pc: Pc, e: Env): (r: World)
    requires pc.CrCheck? || pc.CrAcquire? || pc.CrInsert? || pc.CrUndo?
  {
    match pc
    case CrCheck(id, prov) =>
      if w.lock.Some? then w
      else if |w.table| >= w.maxVMs || id in w.table then Put(w, t, AfterCreateFails(prov))
      else Put(w, t, Some(CrAcquire(id, prov)))
    case CrAcquire(id, prov) =>
      if e.newRef in w.leases then w
      else (match Allocated(w.pool)
            case (q, Granted(s, c)) =>
              Put(w.(pool := q, leases := w.leases[e.newRef := Lease(s, c, [], false)]), t,
                  Some(CrInsert(id, e.newRef, prov)))
            case _ => Put(w, t, AfterCreateFails(prov)))
    case CrInsert(id, net, prov) =>
      if w.lock.Some? || e.newRef in w.insts then w
      else if id in w.table || |w.table| >= w.maxVMs then Put(w, t, Some(CrUndo(net, prov)))
      else Put(w.(insts := w.insts[e.newRef := Inst(id, net, Vm(Created, false))], table := w.table[id := e.newRef]),
               t, if prov then Some(CfEnter(e.newRef, Some(id))) else None)
    case CrUndo(net, prov) =>
      if net !in w.leases then w
      else Put(ReleaseNet(w, net, e.fails), t, AfterCreateFails(prov))
  }

  /** Allocation.Release, with its pool effect, as one step: the allocation lock is held throughout. */
  function ReleaseNet(w: World, net: Ref, fails: set<nat>): World
    requires net in w.leases
  {
    w.(pool := PoolAfterRelease(w.pool, w.leases[net], fails),
       leases := w.leases[net := AfterRelease(w.leases[net], fails)])
  }

  function ConfigureStep(w: World, t: Tid, pc: Pc, e: Env): (r: World)
    requires pc.CfEnter? || pc.CfSetup? || pc.CfBuild? || pc.CfCommit? || pc.CfRelease? || pc.CfAbort?
  {
    if pc.r !in w.insts || w.insts[pc.r].net !in w.leases then w
    else
      var i := w.insts[pc.r];
      match pc
      case CfEnter(r, up) =>
        if !e.ok then Put(w, t, AfterConfigure(r, up, false))
        else (match EnterConfigure(i.vm)
              case None => Put(w, t, AfterConfigure(r, up, false))
              case Some(v) => Put(SetVm(w, r, v), t, Some(CfSetup(r, up))))
      case CfSetup(r, up) =>
        var (l, ok) := SetUp(w.leases[i.net], e.ok, e.ok2);
        Put(w.(leases := w.leases[i.net := l]), t, Some(if ok then CfBuild(r, up) else CfRelease(r, up)))
      case CfBuild(r, up) => Put(w, t, Some(if e.ok then CfCommit(r, up) else CfRelease(r, up)))
      case CfCommit(r, up) => Put(SetVm(w, r, CommitConfigure(i.vm)), t, AfterConfigure(r, up, true))
      case CfRelease(r, up) =>
        Put(ReleaseNet(w, i.net, e.fails), t, Some(CfAbort(r, up, AfterRelease(w.leases[i.net], e.fails).released)))
      case CfAbort(r, up, clean) => Put(SetVm(w, r, AbortConfigure(i.vm, clean)), t, AfterConfigure(r, up, false))
  }

  function StartStep(w: World, t: Tid, pc: Pc, e: Env): (r: World)
    requires pc.StEnter? || pc.StCall? || pc.StFail? || pc.StDone?
  {
    if pc.r !in w.insts then w
    else
      var i := w.insts[pc.r];
      match pc
      case StEnter(r, up) =>
        (match EnterStart(i.vm)
         case None => Put(w, t, AfterStart(r, up, false))
         case Some(v) => Put(SetVm(w, r, v), t, Some(StCall(r, up))))
      case StCall(r, up) => Put(w, t, Some(if e.ok then StDone(r, up) else StFail(r, up)))
      case StFail(r, up) => Put(SetVm(w, r, FailStart(i.vm)), t, AfterStart(r, up, false))
      case StDone(r, up) =>
        (match FinishStart(i.vm)
         case None => Put(w, t, AfterStart(r, up, false))
         case Some(v) => Put(SetVm(w, r, v), t, AfterStart(r, up, true)))
  }

  function StopStep(w: World, t: Tid, pc: Pc, e: Env): (r: World)
    requires pc.SpEnter? || pc.SpKill? || pc.SpRelease? || pc.SpSocket? || pc.SpExit?
  {
    if pc.r !in w.insts || w.insts[pc.r].net !in w.leases then w
    else
      var i := w.insts[pc.r];
      match pc
      case SpEnter(r, k) =>
        (match EnterStop(i.vm)
         case None => Put(w, t, AfterStop(r, k, true, true))
         case Some(v) => Put(SetVm(w, r, v), t, Some(SpKill(r, k, i.vm.machine))))
      case SpKill(r, k, machine) => Put(w, t, Some(SpRelease(r, k, !machine || e.ok)))
      case SpRelease(r, k, stopped) =>
        Put(ReleaseNet(w, i.net, e.fails), t,
            Some(SpSocket(r, k, stopped, AfterRelease(w.leases[i.net], e.fails).released)))
      case SpSocket(r, k, stopped, released) => Put(w, t, Some(SpExit(r, k, stopped, released, stopped && e.ok)))
      case SpExit(r, k, stopped, released, socketGone) =>
        Put(SetVm(w, r, ExitStop(i.vm, stopped, released, socketGone)), t,
            AfterStop(r, k, stopped && released && socketGone, false))
  }

  function TableStep(w: World, t: Tid, pc: Pc, e: Env): (r: World)
    requires pc.Remove? || pc.DsLookup? || pc.RcLock? || pc.RcScan?
  {
    match pc
    case Remove(r, k, early) =>
      if w.lock.Some? || k.Direct? then w
      else if k.id in w.table && w.table[k.id] == r
      then Put(Removed(w, k.id, r, early), t, AfterRemove(k))
      else Put(w, t, AfterRemove(k))
    case DsLookup(id) =>
      if w.lock.Some? then w
      else Put(w, t, if id in w.table then Some(SpEnter(w.table[id], Destroy(id))) else None)
    case RcLock =>
      if w.lock.Some? then w
      else Put(w.(lock := Some(t)), t, Some(RcScan(w.table.Keys, [])))
    case RcScan(todo, found) =>
      if todo == {} then Put(w.(lock := None), t, NextRetry(found))
      else if e.pick !in todo || e.pick !in w.table || w.table[e.pick] !in w.insts then w
      else
        var r := w.table[e.pick];
        Put(w, t, Some(RcScan(todo - {e.pick},
                              if w.insts[r].vm.state == CleanupFailed then found + [(e.pick, r)] else found)))
  }

  /** One step of thread t; a step that cannot run, because it must wait for a lock, changes nothing. */
  function RunStep(w: World, t: Tid, e: Env): (r: World) {
    if t !in w.threads then w
    else
      var pc := w.threads[t];
      match pc
      case ProvGate(_) => ProvisionStep(w, t, pc, e)
      case ProvExit => ProvisionStep(w, t, pc, e)
      case CrCheck(_, _) => CreateStep(w, t, pc, e)
      case CrAcquire(_, _) => CreateStep(w, t, pc, e)
      case CrInsert(_, _, _) => CreateStep(w, t, pc, e)
      case CrUndo(_, _) => CreateStep(w, t, pc, e)
      case CfEnter(_, _) => ConfigureStep(w, t, pc, e)
      case CfSetup(_, _) => ConfigureStep(w, t, pc, e)
      case CfBuild(_, _) => ConfigureStep(w, t, pc, e)
      case CfCommit(_, _) => ConfigureStep(w, t, pc, e)
      case CfRelease(_, _) => ConfigureStep(w, t, pc, e)
      case CfAbort(_, _, _) => ConfigureStep(w, t, pc, e)
      case StEnter(_, _) => StartStep(w, t, pc, e)
      case StCall(_, _) => StartStep(w, t, pc, e)
      case StFail(_, _) => StartStep(w, t, pc, e)
      case StDone(_, _) => StartStep(w, t, pc, e)
      case SpEnter(_, _) => StopStep(w, t, pc, e)
      case SpKill(_, _, _) => StopStep(w, t, pc, e)
      case SpRelease(_, _, _) => StopStep(w, t, pc, e)
      case SpSocket(_, _, _, _) => StopStep(w, t, pc, e)
      case SpExit(_, _, _, _, _) => StopStep(w, t, pc, e)
      case Remove(_, _, _) => TableStep(w, t, pc, e)
      case DsLookup(_) => TableStep(w, t, pc, e)
      case RcLock => TableStep(w, t, pc, e)
      case RcScan(_, _) => TableStep(w, t, pc, e)
  }

  function Step(w: World, ev: Event): (r: World) {
    match ev
    case Begin(t, call) => BeginStep(w, t, call)
    case Run(t, e) => RunStep(w, t, e)
  }

  /** A whole run: any schedule of calls and steps. */
  function Exec(w: World, evs: seq<Event>): (r: World) {
    if evs == [] then w else Step(Exec(w, evs[..|evs| - 1]), evs[|evs| - 1])
  }

  ghost predicate Init(w: World) {
    && PoolOk(w.pool) && w.pool.usedSubnets == {} && w.pool.usedCIDs == {}
    && w.leases == map[] && w.insts == map[] && w.table == map[] && w.gone == map[]
    && w.lock == None && w.tokens == 0 && w.threads == map[]
  }

  ghost predicate Reachable(w: World) {
    exists w0, evs :: Init(w0) && w == Exec(w0, evs)
  }
}
