/** Every step of the VM protocol is a move that keeps the invariant, so the invariant holds along every run. */
module VmRuns {
  import opened Common
  import opened Ipam
  import opened Leases
  import opened Lifecycle
  import opened Manager
  import opened VmProtocol
  import opened VmInvariant
  import opened VmSteps

  // ---- what the invariant says near one thread ----

  /** The instance and lease a position refers to are as the invariant says. */
  ghost predicate NearInstance(w: World, r: Ref) {
    && r in w.insts && w.insts[r].net in w.leases
    && NoDup(w.leases[w.insts[r].net].cleanup)
    && (w.leases[w.insts[r].net].released ==> w.leases[w.insts[r].net].cleanup == [])
    && Shape(w.insts[r].vm, w.leases[w.insts[r].net])
  }

  /** The instance a position refers to. */
  function RefOf(pc: Pc): (r: Option<Ref>) {
    match pc
    case CfEnter(r, _) => Some(r)
    case StEnter(r, _) => Some(r)
    case SpEnter(r, _) => Some(r)
    case Remove(r, _, _) => Some(r)
    case _ => if MidOf(pc).Some? then Some(MidOf(pc).value.0) else None
  }

  ghost predicate Near(w: World, t: Tid) {
    && t in w.threads
    && var pc := w.threads[t];
       && PcOk(w, pc) && Mid(w, t) == MidOf(pc) && Held(w, t) == HeldOf(pc)
       && (RefOf(pc).Some? ==> NearInstance(w, RefOf(pc).value))
       && (MidOf(pc).Some? ==> w.insts[MidOf(pc).value.0].vm.state == MidOf(pc).value.1)
       && (HeldOf(pc).Some? ==> Live(w, HeldOf(pc).value) && w.leases[HeldOf(pc).value].cleanup == [])
       && (pc.RcScan? <==> w.lock == Some(t))
  }

  lemma PcHasInstance(w: World, pc: Pc)
    requires PcOk(w, pc) && RefOf(pc).Some?
    ensures RefOf(pc).value in w.insts
  {
  }

  lemma InstanceIsNear(w: World, r: Ref)
    requires Inv(w) && r in w.insts
    ensures NearInstance(w, r)
  {
  }

  lemma ThreadIsNear(w: World, t: Tid)
    requires Inv(w) && t in w.threads
    ensures Near(w, t)
  {
    var pc := w.threads[t];
    assert Mid(w, t) == MidOf(pc) && Held(w, t) == HeldOf(pc);
    if RefOf(pc).Some? {
      PcHasInstance(w, pc);
      InstanceIsNear(w, RefOf(pc).value);
    }
  }

  // ---- where a thread goes when Stop returns ----

  /** A position outside every middle section, with no lease in hand and no scan under way. */
  predicate Quiet(w: World, pc: Option<Pc>, token: bool) {
    && (pc.Some? ==> PcOk(w, pc.value))
    && MidOpt(pc).None? && HeldOpt(pc).None? && !ScanOpt(pc) && TokenOpt(pc) == token
  }

  lemma RetryLands(w: World, rest: seq<Item>)
    requires forall x :: x in rest ==> Named(w, x.1, x.0)
    ensures Quiet(w, NextRetry(rest), false)
  {
    if rest != [] { assert rest[0] in rest; }
  }

  lemma RemoveLands(w: World, r: Ref, k: Caller)
    requires CallerOk(w, r, k)
    ensures Quiet(w, AfterRemove(k), k.Undo?)
  {
    if k.Retry? { RetryLands(w, k.rest); }
  }

  lemma StopLands(w: World, r: Ref, k: Caller, ok: bool, early: bool)
    requires r in w.insts && CallerOk(w, r, k) && (ok && !early ==> w.insts[r].vm.state == Stopped)
    ensures Quiet(w, AfterStop(r, k, ok, early), k.Undo?)
  {
    RemoveLands(w, r, k);
  }

  lemma CallerKeeps(w: World, r: Ref, k: Caller, v: Vm)
    requires r in w.insts && CallerOk(w, r, k)
    ensures CallerOk(SetVm(w, r, v), r, k)
  {
  }

  // ---- each kind of step as a move ----

  lemma ManagerCallIsMove(w: World, t: Tid, call: Call) returns (m: Move)
    requires t !in w.threads && !call.CallConfigure? && !call.CallStart? && !call.CallStop?
    ensures Fits(w, t, m) && BeginStep(w, t, call) == Moved(w, t, m)
  {
    match call
    case CallCreate(id) => m := if ValidVmId(id) then Walk(Some(CrCheck(id, false))) else Stay;
    case CallProvision(id) => m := if w.tokens < w.maxProvision then TakesToken(ProvGate(id)) else Stay;
    case CallDestroy(id) => m := Walk(Some(DsLookup(id)));
    case CallReconcile => m := Walk(Some(RcLock));
  }

  lemma InstanceCallIsMove(w: World, t: Tid, call: Call) returns (m: Move)
    requires t !in w.threads && (call.CallConfigure? || call.CallStart? || call.CallStop?)
    ensures Fits(w, t, m) && BeginStep(w, t, call) == Moved(w, t, m)
  {
    match call
    case CallConfigure(r) => m := if r in w.insts then Walk(Some(CfEnter(r, None))) else Stay;
    case CallStart(r) => m := if r in w.insts then Walk(Some(StEnter(r, None))) else Stay;
    case CallStop(r) => m := if r in w.insts then Walk(Some(SpEnter(r, Direct))) else Stay;
  }

  lemma ProvisionIsMove(w: World, t: Tid, e: Env) returns (m: Move)
    requires Near(w, t) && (w.threads[t].ProvGate? || w.threads[t].ProvExit?)
    ensures Fits(w, t, m) && ProvisionStep(w, t, w.threads[t], e) == Moved(w, t, m)
  {
    match w.threads[t]
    case ProvGate(id) => m := Walk(Some(if e.ok && ValidVmId(id) then CrCheck(id, true) else ProvExit));
    case ProvExit => m := if w.tokens > 0 then GivesToken else Stay;
  }

  lemma CheckIsMove(w: World, t: Tid, e: Env) returns (m: Move)
    requires Near(w, t) && w.threads[t].CrCheck?
    ensures Fits(w, t, m) && CreateStep(w, t, w.threads[t], e) == Moved(w, t, m)
  {
    var pc := w.threads[t];
    m := if w.lock.Some? then Stay
         else if |w.table| >= w.maxVMs || pc.id in w.table then Walk(AfterCreateFails(pc.prov))
         else Walk(Some(CrAcquire(pc.id, pc.prov)));
  }

  lemma AcquireIsMove(w: World, t: Tid, e: Env) returns (m: Move)
    requires Near(w, t) && w.threads[t].CrAcquire?
    ensures Fits(w, t, m) && CreateStep(w, t, w.threads[t], e) == Moved(w, t, m)
  {
    var pc := w.threads[t];
    var (q, g) := Allocated(w.pool);
    m := if e.newRef in w.leases then Stay
         else if g.Granted?
         then Acquires(e.newRef, Lease(g.subnet, g.cid, [], false), q, Some(CrInsert(pc.id, e.newRef, pc.prov)))
         else Walk(AfterCreateFails(pc.prov));
  }

  lemma InsertIsMove(w: World, t: Tid, e: Env) returns (m: Move)
    requires Near(w, t) && w.threads[t].CrInsert?
    ensures Fits(w, t, m) && CreateStep(w, t, w.threads[t], e) == Moved(w, t, m)
  {
    var pc := w.threads[t];
    m := if w.lock.Some? || e.newRef in w.insts then Stay
         else if pc.id in w.table || |w.table| >= w.maxVMs then Walk(Some(CrUndo(pc.net, pc.prov)))
         else Inserts(pc.id, pc.net, e.newRef, if pc.prov then Some(CfEnter(e.newRef, Some(pc.id))) else None);
  }

  /** A lease with no cleanup steps is given back by any Release. */
  lemma UndoIsMove(w: World, t: Tid, e: Env) returns (m: Move)
    requires Near(w, t) && w.threads[t].CrUndo?
    ensures Fits(w, t, m) && CreateStep(w, t, w.threads[t], e) == Moved(w, t, m)
  {
    var pc := w.threads[t];
    var l := w.leases[pc.net];
    m := GivesBack(pc.net, AfterRelease(l, e.fails), PoolAfterRelease(w.pool, l, e.fails), AfterCreateFails(pc.prov));
  }

  /** Release fits the lease step the invariant allows. */
  lemma ReleaseFits(w: World, r: Ref, fails: set<nat>)
    requires NearInstance(w, r)
    ensures var a := w.insts[r].net;
            LeaseStep(w, a, AfterRelease(w.leases[a], fails), PoolAfterRelease(w.pool, w.leases[a], fails))
  {
    RetainedMembers(w.leases[w.insts[r].net].cleanup, fails);
  }

  lemma CfEnterIsMove(w: World, t: Tid, e: Env) returns (m: Move)
    requires Near(w, t) && w.threads[t].CfEnter?
    ensures Fits(w, t, m) && ConfigureStep(w, t, w.threads[t], e) == Moved(w, t, m)
  {
    var CfEnter(r, up) := w.threads[t];
    var v := EnterConfigure(w.insts[r].vm);
    m := if e.ok && v.Some? then SetsVm(r, v.value, Some(CfSetup(r, up))) else Walk(AfterConfigure(r, up, false));
  }

  lemma CfSetupIsMove(w: World, t: Tid, e: Env) returns (m: Move)
    requires Near(w, t) && w.threads[t].CfSetup?
    ensures Fits(w, t, m) && ConfigureStep(w, t, w.threads[t], e) == Moved(w, t, m)
  {
    var CfSetup(r, up) := w.threads[t];
    var (l, ok) := SetUp(w.leases[w.insts[r].net], e.ok, e.ok2);
    assert NoDup(l.cleanup);
    m := SetsLease(r, l, w.pool, Some(if ok then CfBuild(r, up) else CfRelease(r, up)));
  }

  lemma CfBuildIsMove(w: World, t: Tid, e: Env) returns (m: Move)
    requires Near(w, t) && w.threads[t].CfBuild?
    ensures Fits(w, t, m) && ConfigureStep(w, t, w.threads[t], e) == Moved(w, t, m)
  {
    var CfBuild(r, up) := w.threads[t];
    m := Walk(Some(if e.ok then CfCommit(r, up) else CfRelease(r, up)));
  }

  lemma CfCommitIsMove(w: World, t: Tid, e: Env) returns (m: Move)
    requires Near(w, t) && w.threads[t].CfCommit?
    ensures Fits(w, t, m) && ConfigureStep(w, t, w.threads[t], e) == Moved(w, t, m)
  {
    var CfCommit(r, up) := w.threads[t];
    m := SetsVm(r, CommitConfigure(w.insts[r].vm), AfterConfigure(r, up, true));
  }

  lemma CfReleaseIsMove(w: World, t: Tid, e: Env) returns (m: Move)
    requires Near(w, t) && w.threads[t].CfRelease?
    ensures Fits(w, t, m) && ConfigureStep(w, t, w.threads[t], e) == Moved(w, t, m)
  {
    var CfRelease(r, up) := w.threads[t];
    var held := w.leases[w.insts[r].net];
    var l := AfterRelease(held, e.fails);
    ReleaseFits(w, r, e.fails);
    m := SetsLease(r, l, PoolAfterRelease(w.pool, held, e.fails), Some(CfAbort(r, up, l.released)));
  }

  lemma CfAbortIsMove(w: World, t: Tid, e: Env) returns (m: Move)
    requires Near(w, t) && w.threads[t].CfAbort?
    ensures Fits(w, t, m) && ConfigureStep(w, t, w.threads[t], e) == Moved(w, t, m)
  {
    var CfAbort(r, up, clean) := w.threads[t];
    m := SetsVm(r, AbortConfigure(w.insts[r].vm, clean), AfterConfigure(r, up, false));
  }

  lemma StEnterIsMove(w: World, t: Tid, e: Env) returns (m: Move)
    requires Near(w, t) && w.threads[t].StEnter?
    ensures Fits(w, t, m) && StartStep(w, t, w.threads[t], e) == Moved(w, t, m)
  {
    var StEnter(r, up) := w.threads[t];
    var v := EnterStart(w.insts[r].vm);
    m := if v.Some? then SetsVm(r, v.value, Some(StCall(r, up))) else Walk(AfterStart(r, up, false));
  }

  lemma StCallIsMove(w: World, t: Tid, e: Env) returns (m: Move)
    requires Near(w, t) && w.threads[t].StCall?
    ensures Fits(w, t, m) && StartStep(w, t, w.threads[t], e) == Moved(w, t, m)
  {
    var StCall(r, up) := w.threads[t];
    m := Walk(Some(if e.ok then StDone(r, up) else StFail(r, up)));
  }

  lemma StFailIsMove(w: World, t: Tid, e: Env) returns (m: Move)
    requires Near(w, t) && w.threads[t].StFail?
    ensures Fits(w, t, m) && StartStep(w, t, w.threads[t], e) == Moved(w, t, m)
  {
    var StFail(r, up) := w.threads[t];
    m := SetsVm(r, FailStart(w.insts[r].vm), AfterStart(r, up, false));
  }

  lemma StDoneIsMove(w: World, t: Tid, e: Env) returns (m: Move)
    requires Near(w, t) && w.threads[t].StDone?
    ensures Fits(w, t, m) && StartStep(w, t, w.threads[t], e) == Moved(w, t, m)
  {
    var StDone(r, up) := w.threads[t];
    m := SetsVm(r, w.insts[r].vm.(state := Running), AfterStart(r, up, true));
  }

  lemma SpEnterIsMove(w: World, t: Tid, e: Env) returns (m: Move)
    requires Near(w, t) && w.threads[t].SpEnter?
    ensures Fits(w, t, m) && StopStep(w, t, w.threads[t], e) == Moved(w, t, m)
  {
    var SpEnter(r, k) := w.threads[t];
    var v := EnterStop(w.insts[r].vm);
    if v.Some? {
      CallerKeeps(w, r, k, v.value);
      m := SetsVm(r, v.value, Some(SpKill(r, k, w.insts[r].vm.machine)));
    } else {
      StopLands(w, r, k, true, true);
      m := Walk(AfterStop(r, k, true, true));
    }
  }

  lemma SpKillIsMove(w: World, t: Tid, e: Env) returns (m: Move)
    requires Near(w, t) && w.threads[t].SpKill?
    ensures Fits(w, t, m) && StopStep(w, t, w.threads[t], e) == Moved(w, t, m)
  {
    var SpKill(r, k, machine) := w.threads[t];
    m := Walk(Some(SpRelease(r, k, !machine || e.ok)));
  }

  lemma SpReleaseIsMove(w: World, t: Tid, e: Env) returns (m: Move)
    requires Near(w, t) && w.threads[t].SpRelease?
    ensures Fits(w, t, m) && StopStep(w, t, w.threads[t], e) == Moved(w, t, m)
  {
    var SpRelease(r, k, stopped) := w.threads[t];
    var held := w.leases[w.insts[r].net];
    var l := AfterRelease(held, e.fails);
    ReleaseFits(w, r, e.fails);
    m := SetsLease(r, l, PoolAfterRelease(w.pool, held, e.fails), Some(SpSocket(r, k, stopped, l.released)));
  }

  lemma SpSocketIsMove(w: World, t: Tid, e: Env) returns (m: Move)
    requires Near(w, t) && w.threads[t].SpSocket?
    ensures Fits(w, t, m) && StopStep(w, t, w.threads[t], e) == Moved(w, t, m)
  {
    var SpSocket(r, k, stopped, released) := w.threads[t];
    m := Walk(Some(SpExit(r, k, stopped, released, stopped && e.ok)));
  }

  lemma ExitShape(v: Vm, l: Lease, stopped: bool, released: bool, gone: bool)
    requires released == l.released
    ensures var v' := ExitStop(v, stopped, released, gone);
            && Shape(v', l) && !Transitional(v'.state)
            && (stopped && released && gone <==> v'.state == Stopped)
  {
  }

  lemma ExitFits(w: World, t: Tid, r: Ref, v: Vm, pc: Option<Pc>)
    requires Near(w, t) && Mid(w, t) == Some((r, Stopping)) && !ScanOpt(At(w, t)) && Held(w, t).None?
    requires !Transitional(v.state) && Shape(v, w.leases[w.insts[r].net])
    requires Quiet(SetVm(w, r, v), pc, TokenOpt(At(w, t)))
    ensures Fits(w, t, SetsVm(r, v, pc))
  {
  }

  lemma SpExitIsMove(w: World, t: Tid, e: Env) returns (m: Move)
    requires Near(w, t) && w.threads[t].SpExit?
    ensures Fits(w, t, m) && StopStep(w, t, w.threads[t], e) == Moved(w, t, m)
  {
    var SpExit(r, k, stopped, released, gone) := w.threads[t];
    var v, ok := ExitStop(w.insts[r].vm, stopped, released, gone), stopped && released && gone;
    ExitShape(w.insts[r].vm, w.leases[w.insts[r].net], stopped, released, gone);
    CallerKeeps(w, r, k, v);
    StopLands(SetVm(w, r, v), r, k, ok, false);
    ExitFits(w, t, r, v, AfterStop(r, k, ok, false));
    m := SetsVm(r, v, AfterStop(r, k, ok, false));
  }

  predicate Deletes(w: World, pc: Pc)
    requires pc.Remove?
  {
    w.lock.None? && !pc.k.Direct? && pc.k.id in w.table && w.table[pc.k.id] == pc.r
  }

  lemma DeletionIsMove(w: World, t: Tid, e: Env) returns (m: Move)
    requires Near(w, t) && w.threads[t].Remove? && Deletes(w, w.threads[t])
    ensures Fits(w, t, m) && TableStep(w, t, w.threads[t], e) == Moved(w, t, m)
  {
    var Remove(r, k, early) := w.threads[t];
    RemoveLands(Removed(w, k.id, r, early), r, k);
    m := Removes(k.id, r, early, AfterRemove(k));
  }

  lemma RemoveIsMove(w: World, t: Tid, e: Env) returns (m: Move)
    requires Near(w, t) && w.threads[t].Remove? && !Deletes(w, w.threads[t])
    ensures Fits(w, t, m) && TableStep(w, t, w.threads[t], e) == Moved(w, t, m)
  {
    var Remove(r, k, early) := w.threads[t];
    RemoveLands(w, r, k);
    m := if w.lock.Some? then Stay else Walk(AfterRemove(k));
  }

  lemma LookupIsMove(w: World, t: Tid, e: Env) returns (m: Move)
    requires Near(w, t) && w.threads[t].DsLookup?
    requires forall id :: id in w.table ==> Named(w, w.table[id], id)
    ensures Fits(w, t, m) && TableStep(w, t, w.threads[t], e) == Moved(w, t, m)
  {
    var DsLookup(id) := w.threads[t];
    m := if w.lock.Some? then Stay else Walk(if id in w.table then Some(SpEnter(w.table[id], Destroy(id))) else None);
  }

  lemma LockIsMove(w: World, t: Tid, e: Env) returns (m: Move)
    requires Near(w, t) && w.threads[t].RcLock?
    ensures Fits(w, t, m) && TableStep(w, t, w.threads[t], e) == Moved(w, t, m)
  {
    m := if w.lock.Some? then Stay else Locks(Some(RcScan(w.table.Keys, [])));
  }

  lemma ScanEndIsMove(w: World, t: Tid, e: Env) returns (m: Move)
    requires Near(w, t) && w.threads[t].RcScan? && w.threads[t].todo == {}
    ensures Fits(w, t, m) && TableStep(w, t, w.threads[t], e) == Moved(w, t, m)
  {
    var next := NextRetry(w.threads[t].found);
    RetryLands(w.(lock := None), w.threads[t].found);
    m := Locks(next);
  }

  lemma ScanIsMove(w: World, t: Tid, e: Env) returns (m: Move)
    requires Near(w, t) && w.threads[t].RcScan? && w.threads[t].todo != {}
    requires forall id :: id in w.table ==> Named(w, w.table[id], id)
    ensures Fits(w, t, m) && TableStep(w, t, w.threads[t], e) == Moved(w, t, m)
  {
    var RcScan(todo, found) := w.threads[t];
    if e.pick in todo {
      var r := w.table[e.pick];
      var more := if w.insts[r].vm.state == CleanupFailed then found + [(e.pick, r)] else found;
      assert forall x :: x in more ==> x in found || x == (e.pick, r);
      m := Walk(Some(RcScan(todo - {e.pick}, more)));
    } else {
      m := Stay;
    }
  }

  // ---- every step, every run ----

  lemma TableIsNamed(w: World)
    requires Inv(w)
    ensures forall id :: id in w.table ==> Named(w, w.table[id], id)
  {
  }

  predicate InCreate(pc: Pc) {
    pc.CrCheck? || pc.CrAcquire? || pc.CrInsert? || pc.CrUndo?
  }

  lemma CreateIsMove(w: World, t: Tid, e: Env) returns (m: Move)
    requires Near(w, t) && InCreate(w.threads[t])
    ensures Fits(w, t, m) && CreateStep(w, t, w.threads[t], e) == Moved(w, t, m)
  {
    match w.threads[t]
    case CrCheck(_, _) => m := CheckIsMove(w, t, e);
    case CrAcquire(_, _) => m := AcquireIsMove(w, t, e);
    case CrInsert(_, _, _) => m := InsertIsMove(w, t, e);
    case CrUndo(_, _) => m := UndoIsMove(w, t, e);
  }

  predicate InTableSection(pc: Pc) {
    pc.Remove? || pc.DsLookup? || pc.RcLock? || pc.RcScan?
  }

  predicate InConfigure(pc: Pc) {
    pc.CfEnter? || pc.CfSetup? || pc.CfBuild? || pc.CfCommit? || pc.CfRelease? || pc.CfAbort?
  }

  predicate InStart(pc: Pc) {
    pc.StEnter? || pc.StCall? || pc.StFail? || pc.StDone?
  }

  predicate InStop(pc: Pc) {
    pc.SpEnter? || pc.SpKill? || pc.SpRelease? || pc.SpSocket? || pc.SpExit?
  }

  lemma ConfigureIsMove(w: World, t: Tid, e: Env) returns (m: Move)
    requires Near(w, t) && InConfigure(w.threads[t])
    ensures Fits(w, t, m) && ConfigureStep(w, t, w.threads[t], e) == Moved(w, t, m)
  {
    match w.threads[t]
    case CfEnter(_, _) => m := CfEnterIsMove(w, t, e);
    case CfSetup(_, _) => m := CfSetupIsMove(w, t, e);
    case CfBuild(_, _) => m := CfBuildIsMove(w, t, e);
    case CfCommit(_, _) => m := CfCommitIsMove(w, t, e);
    case CfRelease(_, _) => m := CfReleaseIsMove(w, t, e);
    case CfAbort(_, _, _) => m := CfAbortIsMove(w, t, e);
  }

  lemma StartIsMove(w: World, t: Tid, e: Env) returns (m: Move)
    requires Near(w, t) && InStart(w.threads[t])
    ensures Fits(w, t, m) && StartStep(w, t, w.threads[t], e) == Moved(w, t, m)
  {
    match w.threads[t]
    case StEnter(_, _) => m := StEnterIsMove(w, t, e);
    case StCall(_, _) => m := StCallIsMove(w, t, e);
    case StFail(_, _) => m := StFailIsMove(w, t, e);
    case StDone(_, _) => m := StDoneIsMove(w, t, e);
  }

  lemma StopIsMove(w: World, t: Tid, e: Env) returns (m: Move)
    requires Near(w, t) && InStop(w.threads[t])
    ensures Fits(w, t, m) && StopStep(w, t, w.threads[t], e) == Moved(w, t, m)
  {
    match w.threads[t]
    case SpEnter(_, _) => m := SpEnterIsMove(w, t, e);
    case SpKill(_, _, _) => m := SpKillIsMove(w, t, e);
    case SpRelease(_, _, _) => m := SpReleaseIsMove(w, t, e);
    case SpSocket(_, _, _, _) => m := SpSocketIsMove(w, t, e);
    case SpExit(_, _, _, _, _) => m := SpExitIsMove(w, t, e);
  }

  lemma TableStepIsMove(w: World, t: Tid, e: Env) returns (m: Move)
    requires Near(w, t) && InTableSection(w.threads[t])
    requires forall id :: id in w.table ==> Named(w, w.table[id], id)
    ensures Fits(w, t, m) && TableStep(w, t, w.threads[t], e) == Moved(w, t, m)
  {
    match w.threads[t]
    case Remove(_, _, _) =>
      if Deletes(w, w.threads[t]) { m := DeletionIsMove(w, t, e); } else { m := RemoveIsMove(w, t, e); }
    case DsLookup(_) => m := LookupIsMove(w, t, e);
    case RcLock => m := LockIsMove(w, t, e);
    case RcScan(todo, _) => if todo == {} { m := ScanEndIsMove(w, t, e); } else { m := ScanIsMove(w, t, e); }
  }

  lemma RunIsMove(w: World, t: Tid, e: Env) returns (m: Move)
    requires Near(w, t)
    requires forall id :: id in w.table ==> Named(w, w.table[id], id)
    ensures Fits(w, t, m) && RunStep(w, t, e) == Moved(w, t, m)
  {
    var pc := w.threads[t];
    if pc.ProvGate? || pc.ProvExit? {
      m := ProvisionIsMove(w, t, e);
    } else if InCreate(pc) {
      m := CreateIsMove(w, t, e);
    } else if InConfigure(pc) {
      m := ConfigureIsMove(w, t, e);
    } else if InStart(pc) {
      m := StartIsMove(w, t, e);
    } else if InStop(pc) {
      m := StopIsMove(w, t, e);
    } else {
      m := TableStepIsMove(w, t, e);
    }
  }

  /** Every step of the protocol is a fitting move of its thread. */
  lemma StepIsMove(w: World, ev: Event) returns (m: Move)
    requires Inv(w)
    ensures Fits(w, ev.t, m) && Step(w, ev) == Moved(w, ev.t, m)
  {
    m := Stay;
    match ev
    case Begin(t, call) =>
      if t !in w.threads {
        if call.CallConfigure? || call.CallStart? || call.CallStop? {
          m := InstanceCallIsMove(w, t, call);
        } else {
          m := ManagerCallIsMove(w, t, call);
        }
      }
    case Run(t, e) =>
      if t in w.threads {
        ThreadIsNear(w, t);
        TableIsNamed(w);
        m := RunIsMove(w, t, e);
      }
  }

  lemma StepKeeps(w: World, ev: Event)
    requires Inv(w)
    ensures Inv(Step(w, ev))
  {
    var m := StepIsMove(w, ev);
    MoveKeeps(w, ev.t, m);
  }

  /** The invariant holds after every schedule. */
  lemma {:induction false} AlwaysInv(w0: World, evs: seq<Event>)
    requires Init(w0)
    ensures Inv(Exec(w0, evs))
    decreases |evs|
  {
    if evs == [] {
      InitInv(w0);
    } else {
      AlwaysInv(w0, evs[..|evs| - 1]);
      StepKeeps(Exec(w0, evs[..|evs| - 1]), evs[|evs| - 1]);
    }
  }
}
