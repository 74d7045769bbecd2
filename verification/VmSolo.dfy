/** A thread that meets no interference does in steps what the whole call does at once. So the sequential results on
    Configure, Start, Stop, on removal by any caller and on ProvisionVM past CreateVM speak about the protocol too. */
module VmSolo {
  import opened Common
  import opened Ipam
  import opened Leases
  import opened Lifecycle
  import opened Manager
  import opened VmProtocol

  /** What instance r holds; the socket file, which the protocol does not track, is given. */
  function HoldingsOf(w: World, r: Ref, socket: bool): Holdings
    requires r in w.insts && w.insts[r].net in w.leases
  {
    Holdings(w.insts[r].vm, w.leases[w.insts[r].net], socket)
  }

  /** The world with instance r, its lease and the pool as given, and thread t where it is put. */
  function At(w: World, t: Tid, r: Ref, v: Vm, l: Lease, p: Pool, pc: Option<Pc>): World
    requires r in w.insts
  {
    Put(w.(insts := w.insts[r := w.insts[r].(vm := v)], leases := w.leases[w.insts[r].net := l], pool := p), t, pc)
  }

  function Answer(ok: bool, ok2: bool, fails: set<nat>): Env {
    Env(ok, ok2, fails, 0, "")
  }

  const YES: Env := Answer(true, true, {})

  predicate Stands(w: World, t: Tid, r: Ref, pc: Pc) {
    t in w.threads && w.threads[t] == pc && r in w.insts && w.insts[r].net in w.leases
  }

  lemma AtStart(w: World, t: Tid, r: Ref, pc: Option<Pc>)
    requires r in w.insts && w.insts[r].net in w.leases
    ensures Put(w, t, pc) == At(w, t, r, w.insts[r].vm, w.leases[w.insts[r].net], w.pool, pc)
  {
    assert w.insts[r := w.insts[r].(vm := w.insts[r].vm)] == w.insts;
    assert w.leases[w.insts[r].net := w.leases[w.insts[r].net]] == w.leases;
  }

  lemma AtTwice(w: World, t: Tid, r: Ref, v: Vm, l: Lease, p: Pool, pc: Option<Pc>,
                v': Vm, l': Lease, p': Pool, pc': Option<Pc>)
    requires r in w.insts
    ensures At(At(w, t, r, v, l, p, pc), t, r, v', l', p', pc') == At(w, t, r, v', l', p', pc')
  {
    var w1 := At(w, t, r, v, l, p, pc);
    var w2, w3 := At(w1, t, r, v', l', p', pc'), At(w, t, r, v', l', p', pc');
    assert w2.insts == w3.insts;
    assert w2.leases == w3.leases;
    assert w2.threads == w3.threads;
  }

  // ---- Stop ----

  function StopAlone(w: World, t: Tid, e: StopEnv): (r: World) {
    var w1 := RunStep(w, t, YES);
    if !(t in w1.threads && w1.threads[t].SpKill?) then w1
    else
      var w2 := RunStep(w1, t, Answer(e.vmm, true, {}));
      var w3 := RunStep(w2, t, Answer(true, true, e.fails));
      var w4 := RunStep(w3, t, Answer(e.socket, true, {}));
      RunStep(w4, t, YES)
  }

  lemma StopEnters(w: World, t: Tid, r: Ref, k: Caller)
    requires Stands(w, t, r, SpEnter(r, k))
    ensures var v, l := w.insts[r].vm, w.leases[w.insts[r].net];
            RunStep(w, t, YES) ==
            if EnterStop(v).None? then At(w, t, r, v, l, w.pool, AfterStop(r, k, true, true))
            else At(w, t, r, EnterStop(v).value, l, w.pool, Some(SpKill(r, k, v.machine)))
  {
    AtStart(w, t, r, AfterStop(r, k, true, true));
    assert RunStep(w, t, YES) == StopStep(w, t, SpEnter(r, k), YES);
    assert w.leases[w.insts[r].net := w.leases[w.insts[r].net]] == w.leases;
  }

  lemma StopGoesOn(w: World, t: Tid, r: Ref, v: Vm, l: Lease, p: Pool, pc: Pc, e: Env)
    requires r in w.insts && (pc.SpKill? || pc.SpSocket?) && pc.r == r
    ensures RunStep(At(w, t, r, v, l, p, Some(pc)), t, e) ==
            At(w, t, r, v, l, p, Some(if pc.SpKill? then SpRelease(r, pc.k, !pc.machine || e.ok)
                                      else SpExit(r, pc.k, pc.stopped, pc.released, pc.stopped && e.ok)))
  {
    var w1 := At(w, t, r, v, l, p, Some(pc));
    assert RunStep(w1, t, e) == StopStep(w1, t, pc, e);
  }

  lemma StopReleases(w: World, t: Tid, r: Ref, k: Caller, v: Vm, l: Lease, p: Pool, stopped: bool, e: Env)
    requires r in w.insts
    ensures RunStep(At(w, t, r, v, l, p, Some(SpRelease(r, k, stopped))), t, e) ==
            At(w, t, r, v, AfterRelease(l, e.fails), PoolAfterRelease(p, l, e.fails),
               Some(SpSocket(r, k, stopped, AfterRelease(l, e.fails).released)))
  {
    var w1 := At(w, t, r, v, l, p, Some(SpRelease(r, k, stopped)));
    assert RunStep(w1, t, e) == StopStep(w1, t, SpRelease(r, k, stopped), e);
  }

  lemma StopExits(w: World, t: Tid, r: Ref, v: Vm, l: Lease, p: Pool, pc: Pc, e: Env)
    requires r in w.insts && pc.SpExit? && pc.r == r
    ensures RunStep(At(w, t, r, v, l, p, Some(pc)), t, e) ==
            At(w, t, r, ExitStop(v, pc.stopped, pc.released, pc.socketGone), l, p,
               AfterStop(r, pc.k, pc.stopped && pc.released && pc.socketGone, false))
  {
    var w1 := At(w, t, r, v, l, p, Some(pc));
    assert RunStep(w1, t, e) == StopStep(w1, t, pc, e);
  }

  /** Stop, run by a thread alone for any caller, leaves what StopCall says, returns the lease to the pool just when it
      should, and goes on as its result demands. */
  lemma StopAloneIsStopCall(w: World, t: Tid, r: Ref, k: Caller, e: StopEnv, socket: bool)
    requires Stands(w, t, r, SpEnter(r, k))
    ensures var h := HoldingsOf(w, r, socket);
            var (h', ok) := StopCall(h, e);
            StopAlone(w, t, e) ==
            At(w, t, r, h'.vm, h'.lease, PoolAfterStop(w.pool, h, e), AfterStop(r, k, ok, EnterStop(h.vm).None?))
  {
    var v, l := w.insts[r].vm, w.leases[w.insts[r].net];
    StopEnters(w, t, r, k);
    if EnterStop(v).Some? {
      var u, stopped := EnterStop(v).value, !v.machine || e.vmm;
      var l', p' := AfterRelease(l, e.fails), PoolAfterRelease(w.pool, l, e.fails);
      StopGoesOn(w, t, r, u, l, w.pool, SpKill(r, k, v.machine), Answer(e.vmm, true, {}));
      StopReleases(w, t, r, k, u, l, w.pool, stopped, Answer(true, true, e.fails));
      StopGoesOn(w, t, r, u, l', p', SpSocket(r, k, stopped, l'.released), Answer(e.socket, true, {}));
      StopExits(w, t, r, u, l', p', SpExit(r, k, stopped, l'.released, stopped && e.socket), YES);
    }
  }

  // ---- removal ----

  function RemoveAlone(w: World, t: Tid, e: StopEnv): (r: World) {
    var w1 := StopAlone(w, t, e);
    if t in w1.threads && w1.threads[t].Remove? then RunStep(w1, t, YES) else w1
  }

  lemma EntryIsRemoved(w: World, t: Tid, r: Ref, v: Vm, l: Lease, p: Pool, k: Caller, early: bool)
    requires r in w.insts && w.lock.None? && !k.Direct? && k.id in w.table && w.table[k.id] == r
    ensures RunStep(At(w, t, r, v, l, p, Some(Remove(r, k, early))), t, YES) ==
            At(Removed(w, k.id, r, early), t, r, v, l, p, AfterRemove(k))
  {
    var w1 := At(w, t, r, v, l, p, Some(Remove(r, k, early)));
    assert RunStep(w1, t, YES) == TableStep(w1, t, Remove(r, k, early), YES);
  }

  lemma RetryIsNoRemoval(k: Caller)
    ensures AfterRemove(k).Some? ==> !AfterRemove(k).value.Remove?
  {
  }

  /** DestroyVM past its lookup, one retry of Reconcile, or the undoing of a failed ProvisionVM: alone, the VM is
      stopped as StopCall says and its entry goes exactly when that reports success. */
  lemma RemoveAloneIsStopCall(w: World, t: Tid, r: Ref, k: Caller, e: StopEnv, socket: bool)
    requires Stands(w, t, r, SpEnter(r, k)) && w.lock.None?
    requires !k.Direct? && k.id in w.table && w.table[k.id] == r
    ensures var h := HoldingsOf(w, r, socket);
            var (h', ok) := StopCall(h, e);
            RemoveAlone(w, t, e) ==
            At(if ok then Removed(w, k.id, r, EnterStop(h.vm).None?) else w, t, r, h'.vm, h'.lease,
               PoolAfterStop(w.pool, h, e), AfterRemove(k))
  {
    var h := HoldingsOf(w, r, socket);
    var (h', ok) := StopCall(h, e);
    StopAloneIsStopCall(w, t, r, k, e, socket);
    RetryIsNoRemoval(k);
    if ok {
      EntryIsRemoved(w, t, r, h'.vm, h'.lease, PoolAfterStop(w.pool, h, e), k, EnterStop(h.vm).None?);
    }
  }

  // ---- Configure ----

  function ConfigureAlone(w: World, t: Tid, e: ConfigureEnv): (r: World) {
    var w1 := RunStep(w, t, Answer(e.checks, true, {}));
    if t in w1.threads && w1.threads[t].CfSetup? then SetupAlone(w1, t, e) else w1
  }

  function SetupAlone(w: World, t: Tid, e: ConfigureEnv): (r: World) {
    var w1 := RunStep(w, t, Answer(e.tap, e.firewall, {}));
    var w2 := RunStep(w1, t, Answer(e.machine, true, e.fails));
    var w3 := RunStep(w2, t, Answer(true, true, e.fails));
    if t in w3.threads && w3.threads[t].CfAbort? then RunStep(w3, t, YES) else w3
  }

  lemma ConfigureEnters(w: World, t: Tid, r: Ref, up: Option<string>, checks: bool)
    requires Stands(w, t, r, CfEnter(r, up))
    ensures var v, l := w.insts[r].vm, w.leases[w.insts[r].net];
            RunStep(w, t, Answer(checks, true, {})) ==
            if !checks || EnterConfigure(v).None? then At(w, t, r, v, l, w.pool, AfterConfigure(r, up, false))
            else At(w, t, r, EnterConfigure(v).value, l, w.pool, Some(CfSetup(r, up)))
  {
    AtStart(w, t, r, AfterConfigure(r, up, false));
    assert RunStep(w, t, Answer(checks, true, {})) == ConfigureStep(w, t, CfEnter(r, up), Answer(checks, true, {}));
    assert w.leases[w.insts[r].net := w.leases[w.insts[r].net]] == w.leases;
  }

  lemma ConfigureSetsUp(w: World, t: Tid, r: Ref, up: Option<string>, v: Vm, l: Lease, p: Pool, e: Env)
    requires r in w.insts
    ensures var (l', ok) := SetUp(l, e.ok, e.ok2);
            RunStep(At(w, t, r, v, l, p, Some(CfSetup(r, up))), t, e) ==
            At(w, t, r, v, l', p, Some(if ok then CfBuild(r, up) else CfRelease(r, up)))
  {
    var w1 := At(w, t, r, v, l, p, Some(CfSetup(r, up)));
    assert RunStep(w1, t, e) == ConfigureStep(w1, t, CfSetup(r, up), e);
  }

  lemma ConfigureBuilds(w: World, t: Tid, r: Ref, up: Option<string>, v: Vm, l: Lease, p: Pool, e: Env)
    requires r in w.insts
    ensures RunStep(At(w, t, r, v, l, p, Some(CfBuild(r, up))), t, e) ==
            At(w, t, r, v, l, p, Some(if e.ok then CfCommit(r, up) else CfRelease(r, up)))
  {
    var w1 := At(w, t, r, v, l, p, Some(CfBuild(r, up)));
    assert RunStep(w1, t, e) == ConfigureStep(w1, t, CfBuild(r, up), e);
  }

  lemma ConfigureReleases(w: World, t: Tid, r: Ref, up: Option<string>, v: Vm, l: Lease, p: Pool, e: Env)
    requires r in w.insts
    ensures RunStep(At(w, t, r, v, l, p, Some(CfRelease(r, up))), t, e) ==
            At(w, t, r, v, AfterRelease(l, e.fails), PoolAfterRelease(p, l, e.fails),
               Some(CfAbort(r, up, AfterRelease(l, e.fails).released)))
  {
    var w1 := At(w, t, r, v, l, p, Some(CfRelease(r, up)));
    assert RunStep(w1, t, e) == ConfigureStep(w1, t, CfRelease(r, up), e);
  }

  lemma ConfigureEnds(w: World, t: Tid, r: Ref, v: Vm, l: Lease, p: Pool, pc: Pc, e: Env)
    requires r in w.insts && (pc.CfCommit? || pc.CfAbort?) && pc.r == r
    ensures RunStep(At(w, t, r, v, l, p, Some(pc)), t, e) ==
            At(w, t, r, if pc.CfCommit? then CommitConfigure(v) else AbortConfigure(v, pc.clean), l, p,
               AfterConfigure(r, pc.up, pc.CfCommit?))
  {
    var w1 := At(w, t, r, v, l, p, Some(pc));
    assert RunStep(w1, t, e) == ConfigureStep(w1, t, pc, e);
  }

  lemma SetupCommits(w: World, t: Tid, r: Ref, up: Option<string>, v: Vm, l: Lease, p: Pool, e: ConfigureEnv)
    requires r in w.insts && SetUp(l, e.tap, e.firewall).1 && e.machine
    ensures SetupAlone(At(w, t, r, v, l, p, Some(CfSetup(r, up))), t, e) ==
            At(w, t, r, CommitConfigure(v), SetUp(l, e.tap, e.firewall).0, p, AfterConfigure(r, up, true))
  {
    var l1 := SetUp(l, e.tap, e.firewall).0;
    ConfigureSetsUp(w, t, r, up, v, l, p, Answer(e.tap, e.firewall, {}));
    ConfigureBuilds(w, t, r, up, v, l1, p, Answer(e.machine, true, e.fails));
    ConfigureEnds(w, t, r, v, l1, p, CfCommit(r, up), Answer(true, true, e.fails));
  }

  lemma SetupRollsBack(w: World, t: Tid, r: Ref, up: Option<string>, v: Vm, l: Lease, p: Pool, e: ConfigureEnv)
    requires r in w.insts && !(SetUp(l, e.tap, e.firewall).1 && e.machine)
    ensures var l1 := SetUp(l, e.tap, e.firewall).0;
            var l2 := AfterRelease(l1, e.fails);
            SetupAlone(At(w, t, r, v, l, p, Some(CfSetup(r, up))), t, e) ==
            At(w, t, r, AbortConfigure(v, l2.released), l2, PoolAfterRelease(p, l1, e.fails),
               AfterConfigure(r, up, false))
  {
    var (l1, furnished) := SetUp(l, e.tap, e.firewall);
    var l2, p2 := AfterRelease(l1, e.fails), PoolAfterRelease(p, l1, e.fails);
    var third, fourth := Answer(e.machine, true, e.fails), Answer(true, true, e.fails);
    ConfigureSetsUp(w, t, r, up, v, l, p, Answer(e.tap, e.firewall, {}));
    if furnished { ConfigureBuilds(w, t, r, up, v, l1, p, third); }
    ConfigureReleases(w, t, r, up, v, l1, p, if furnished then fourth else third);
    ConfigureEnds(w, t, r, v, l2, p2, CfAbort(r, up, l2.released), if furnished then YES else fourth);
  }

  /** Configure, run by a thread alone, leaves what ConfigureCall says, and its rollback returns the lease to the pool
      just when it should. */
  lemma ConfigureAloneIsConfigureCall(w: World, t: Tid, r: Ref, up: Option<string>, e: ConfigureEnv, socket: bool)
    requires Stands(w, t, r, CfEnter(r, up))
    ensures var h := HoldingsOf(w, r, socket);
            var (h', ok) := ConfigureCall(h, e);
            ConfigureAlone(w, t, e) ==
            At(w, t, r, h'.vm, h'.lease, PoolAfterConfigure(w.pool, h, e), AfterConfigure(r, up, ok))
  {
    var v, l := w.insts[r].vm, w.leases[w.insts[r].net];
    ConfigureEnters(w, t, r, up, e.checks);
    if e.checks && EnterConfigure(v).Some? {
      var u := EnterConfigure(v).value;
      if SetUp(l, e.tap, e.firewall).1 && e.machine {
        SetupCommits(w, t, r, up, u, l, w.pool, e);
      } else {
        SetupRollsBack(w, t, r, up, u, l, w.pool, e);
      }
    }
  }

  // ---- Start ----

  function StartAlone(w: World, t: Tid, e: StartEnv): (r: World) {
    var w1 := RunStep(w, t, YES);
    if !(t in w1.threads && w1.threads[t].StCall?) then w1
    else RunStep(RunStep(w1, t, Answer(e.ok, true, {})), t, YES)
  }

  lemma StartEnters(w: World, t: Tid, r: Ref, up: Option<string>)
    requires Stands(w, t, r, StEnter(r, up))
    ensures var v, l := w.insts[r].vm, w.leases[w.insts[r].net];
            RunStep(w, t, YES) ==
            if EnterStart(v).None? then At(w, t, r, v, l, w.pool, AfterStart(r, up, false))
            else At(w, t, r, EnterStart(v).value, l, w.pool, Some(StCall(r, up)))
  {
    AtStart(w, t, r, AfterStart(r, up, false));
    assert RunStep(w, t, YES) == StartStep(w, t, StEnter(r, up), YES);
    assert w.leases[w.insts[r].net := w.leases[w.insts[r].net]] == w.leases;
  }

  lemma StartCalls(w: World, t: Tid, r: Ref, up: Option<string>, v: Vm, l: Lease, p: Pool, e: Env)
    requires r in w.insts
    ensures RunStep(At(w, t, r, v, l, p, Some(StCall(r, up))), t, e) ==
            At(w, t, r, v, l, p, Some(if e.ok then StDone(r, up) else StFail(r, up)))
  {
    var w1 := At(w, t, r, v, l, p, Some(StCall(r, up)));
    assert RunStep(w1, t, e) == StartStep(w1, t, StCall(r, up), e);
  }

  lemma StartEnds(w: World, t: Tid, r: Ref, v: Vm, l: Lease, p: Pool, pc: Pc)
    requires r in w.insts && (pc.StDone? || pc.StFail?) && pc.r == r && v.state == Starting
    ensures RunStep(At(w, t, r, v, l, p, Some(pc)), t, YES) ==
            At(w, t, r, if pc.StDone? then FinishStart(v).value else FailStart(v), l, p,
               AfterStart(r, pc.up, pc.StDone?))
  {
    var w1 := At(w, t, r, v, l, p, Some(pc));
    assert RunStep(w1, t, YES) == StartStep(w1, t, pc, YES);
  }

  /** Start, run by a thread alone, leaves what StartCall says. */
  lemma StartAloneIsStartCall(w: World, t: Tid, r: Ref, up: Option<string>, e: StartEnv, socket: bool)
    requires Stands(w, t, r, StEnter(r, up))
    ensures var h := HoldingsOf(w, r, socket);
            var (h', ok) := StartCall(h, e);
            h'.lease == h.lease && StartAlone(w, t, e) == At(w, t, r, h'.vm, h.lease, w.pool, AfterStart(r, up, ok))
  {
    var v, l := w.insts[r].vm, w.leases[w.insts[r].net];
    StartEnters(w, t, r, up);
    if EnterStart(v).Some? {
      var u := EnterStart(v).value;
      StartCalls(w, t, r, up, u, l, w.pool, Answer(e.ok, true, {}));
      StartEnds(w, t, r, u, l, w.pool, if e.ok then StDone(r, up) else StFail(r, up));
    }
  }

  // ---- ProvisionVM past CreateVM ----

  function ProvisionAlone(w: World, t: Tid, e: ProvisionEnv): (r: World) {
    var w1 := ConfigureAlone(w, t, e.configure);
    var w2 := if t in w1.threads && w1.threads[t].StEnter? then StartAlone(w1, t, e.start) else w1;
    if t in w2.threads && w2.threads[t].SpEnter? then RemoveAlone(w2, t, e.stop) else w2
  }

  /** Configure and Start in a row, by one thread alone. */
  lemma UpAlone(w: World, t: Tid, r: Ref, id: string, l: Lease, e: ProvisionEnv)
    requires Stands(w, t, r, CfEnter(r, Some(id))) && HoldingsOf(w, r, false) == NewVm(l)
    ensures var w1 := ConfigureAlone(w, t, e.configure);
            var w2 := if t in w1.threads && w1.threads[t].StEnter? then StartAlone(w1, t, e.start) else w1;
            var (h1, configured) := ConfigureCall(NewVm(l), e.configure);
            var (h2, started) := if configured then StartCall(h1, e.start) else (h1, false);
            w2 == At(w, t, r, h2.vm, h2.lease, PoolAfterConfigure(w.pool, NewVm(l), e.configure),
                     Some(if started then ProvExit else SpEnter(r, Undo(id))))
  {
    var up, h0 := Some(id), NewVm(l);
    var (h1, configured) := ConfigureCall(h0, e.configure);
    var p1 := PoolAfterConfigure(w.pool, h0, e.configure);
    ConfigureAloneIsConfigureCall(w, t, r, up, e.configure, false);
    var w1 := ConfigureAlone(w, t, e.configure);
    assert w1 == At(w, t, r, h1.vm, h1.lease, p1, AfterConfigure(r, up, configured));
    if configured {
      var (h2, started) := StartCall(h1, e.start);
      StartAloneIsStartCall(w1, t, r, up, e.start, h1.socket);
      AtTwice(w, t, r, h1.vm, h1.lease, p1, Some(StEnter(r, up)), h2.vm, h1.lease, p1, AfterStart(r, up, started));
    }
  }

  /** The undoing of a failed ProvisionVM, seen from the world in which it began. */
  lemma UndoAlone(w: World, t: Tid, r: Ref, id: string, h: Holdings, p: Pool, e: StopEnv)
    requires r in w.insts && w.lock.None? && id in w.table && w.table[id] == r && h.vm.state != Stopped
    ensures var (h', ok) := StopCall(h, e);
            RemoveAlone(At(w, t, r, h.vm, h.lease, p, Some(SpEnter(r, Undo(id)))), t, e) ==
            At(if ok then Removed(w, id, r, h'.vm.state != Stopped) else w, t, r, h'.vm, h'.lease,
               PoolAfterStop(p, h, e), Some(ProvExit))
  {
    var (h', ok) := StopCall(h, e);
    var early, start := EnterStop(h.vm).None?, Some(SpEnter(r, Undo(id)));
    assert ok ==> (early <==> h'.vm.state != Stopped);
    RemoveAloneIsStopCall(At(w, t, r, h.vm, h.lease, p, start), t, r, Undo(id), e, h.socket);
    var u := if ok then Removed(w, id, r, early) else w;
    AtTwice(u, t, r, h.vm, h.lease, p, start, h'.vm, h'.lease, PoolAfterStop(p, h, e), Some(ProvExit));
  }

  /** ProvisionVM past CreateVM, run by a thread alone, ends as BringUp says, for the VM, the pool and the table. */
  lemma ProvisionAloneIsBringUp(w: World, t: Tid, r: Ref, id: string, l: Lease, e: ProvisionEnv)
    requires Stands(w, t, r, CfEnter(r, Some(id))) && HoldingsOf(w, r, false) == NewVm(l)
    requires w.lock.None? && id in w.table && w.table[id] == r
    ensures var b := BringUp(l, e);
            ProvisionAlone(w, t, e) ==
            At(if b.resident then w else Removed(w, id, r, b.made.vm.state != Stopped), t, r, b.made.vm, b.made.lease,
               PoolAfterBringUp(w.pool, l, e), Some(ProvExit))
  {
    var (h1, configured) := ConfigureCall(NewVm(l), e.configure);
    var (h2, started) := if configured then StartCall(h1, e.start) else (h1, false);
    UpAlone(w, t, r, id, l, e);
    if !started {
      UndoAlone(w, t, r, id, h2, PoolAfterConfigure(w.pool, NewVm(l), e.configure), e.stop);
    }
  }
}
