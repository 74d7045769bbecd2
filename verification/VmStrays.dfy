/** Runs in which a removal takes an instance out of the table although something of it is left. In all of them the
    remover's Stop returns early and reports success. */
module VmStrays {
  import opened Common
  import opened Ipam
  import opened Leases
  import opened Lifecycle
  import opened Manager
  import opened VmProtocol
  import opened VmInvariant
  import opened VmTheorems
  import opened VmRemoval
  import opened VmSolo

  // ---- schedules ----

  /** The host refuses everything. */
  const NO: Env := Answer(false, false, {0, 1})

  /** n steps of thread t, each with the same host answers. */
  function Runs(t: Tid, e: Env, n: nat): seq<Event> {
    seq(n, _ => Run(t, e))
  }

  function Times(w: World, t: Tid, e: Env, n: nat): World
    decreases n
  {
    if n == 0 then w else Times(RunStep(w, t, e), t, e, n - 1)
  }

  lemma ExecSnoc(w: World, evs: seq<Event>, ev: Event)
    ensures Exec(w, evs + [ev]) == Step(Exec(w, evs), ev)
  {
    assert (evs + [ev])[..|evs|] == evs;
  }

  lemma {:induction false} ExecRuns(w: World, evs: seq<Event>, t: Tid, e: Env, n: nat)
    ensures Exec(w, evs + Runs(t, e, n)) == Times(Exec(w, evs), t, e, n)
    decreases n
  {
    if n == 0 {
      assert evs + Runs(t, e, 0) == evs;
    } else {
      assert evs + Runs(t, e, n) == evs + [Run(t, e)] + Runs(t, e, n - 1);
      ExecSnoc(w, evs, Run(t, e));
      ExecRuns(w, evs + [Run(t, e)], t, e, n - 1);
    }
  }

  /** A call and n steps of it, after the events so far. */
  lemma ExecCall(w: World, evs: seq<Event>, t: Tid, call: Call, n: nat)
    ensures Exec(w, evs + [Begin(t, call)] + Runs(t, YES, n)) == Times(BeginStep(Exec(w, evs), t, call), t, YES, n)
  {
    ExecSnoc(w, evs, Begin(t, call));
    ExecRuns(w, evs + [Begin(t, call)], t, YES, n);
  }

  // ---- a world with one instance ----

  /** The instance at address 0, its lease at address 0, and the threads. */
  datatype Still = Still(vm: Vm, lease: Lease, resident: bool, tokens: nat, threads: map<Tid, Pc>)

  ghost predicate Scene(w: World, id: string, s: Still) {
    && w.lock == None && w.insts == map[0 := Inst(id, 0, s.vm)] && w.leases == map[0 := s.lease]
    && w.table == (if s.resident then map[id := 0] else map[])
    && w.gone == (if s.resident then map[] else map[0 := true])
    && w.tokens == s.tokens && w.threads == s.threads
  }

  function Threads(s: Still, t: Tid, pc: Option<Pc>): map<Tid, Pc> {
    match pc case Some(p) => s.threads[t := p] case None => s.threads - {t}
  }

  /** A step that sets the instance, its lease, the pool and its thread. */
  lemma SceneMoves(w: World, id: string, s: Still, t: Tid, v: Vm, l: Lease, p: Pool, pc: Option<Pc>)
    requires Scene(w, id, s)
    ensures Scene(At(w, t, 0, v, l, p, pc), id, s.(vm := v, lease := l, threads := Threads(s, t, pc)))
  {
  }

  /** The scene as a step of thread t sees it. */
  lemma SceneIsAt(w: World, id: string, s: Still, t: Tid)
    requires Scene(w, id, s) && t in s.threads
    ensures Stands(w, t, 0, s.threads[t])
    ensures w == At(w, t, 0, s.vm, s.lease, w.pool, Some(s.threads[t]))
  {
    AtStart(w, t, 0, Some(s.threads[t]));
    assert w.threads[t := w.threads[t]] == w.threads;
  }

  // ---- CreateVM ----

  /** A new world in which thread 0 begins CreateVM. */
  ghost predicate Creating0(w: World, id: string, prov: bool) {
    && PoolOk(w.pool) && w.pool.usedSubnets == {} && w.leases == map[] && w.insts == map[] && w.table == map[]
    && w.gone == map[] && w.maxVMs > 0 && w.lock == None && w.tokens == (if prov then 1 else 0)
    && w.threads == map[0 := CrCheck(id, prov)]
  }

  function Made(prov: bool, id: string, l: Lease): Still {
    Still(Vm(Created, false), l, true, if prov then 1 else 0, if prov then map[0 := CfEnter(0, Some(id))] else map[])
  }

  lemma CreateChecks(w: World, id: string, prov: bool)
    requires Creating0(w, id, prov)
    ensures RunStep(w, 0, YES) == w.(threads := map[0 := CrAcquire(id, prov)])
  {
    assert RunStep(w, 0, YES) == CreateStep(w, 0, CrCheck(id, prov), YES);
    assert w.threads[0 := CrAcquire(id, prov)] == map[0 := CrAcquire(id, prov)];
  }

  lemma CreateInserts(w: World, id: string, prov: bool) returns (l: Lease)
    requires PoolOk(w.pool) && w.pool.usedSubnets == {} && w.leases == map[] && w.insts == map[] && w.table == map[]
    requires w.gone == map[] && w.maxVMs > 0 && w.lock == None && w.tokens == (if prov then 1 else 0)
    requires w.threads == map[0 := CrAcquire(id, prov)]
    ensures !l.released && l.cleanup == [] && Scene(RunStep(RunStep(w, 0, YES), 0, YES), id, Made(prov, id, l))
  {
    AllocateIsFresh(w.pool);
    assert 0 !in w.pool.usedSubnets;
    var g := Allocated(w.pool).1;
    l := Lease(g.subnet, g.cid, [], false);
    var w1 := RunStep(w, 0, YES);
    assert w1 == CreateStep(w, 0, CrAcquire(id, prov), YES);
    assert RunStep(w1, 0, YES) == CreateStep(w1, 0, CrInsert(id, 0, prov), YES);
  }

  /** CreateVM puts the instance into the table, with a live lease. */
  lemma CreateRuns(w: World, id: string, prov: bool) returns (l: Lease)
    requires Creating0(w, id, prov)
    ensures !l.released && l.cleanup == [] && Scene(Times(w, 0, YES, 3), id, Made(prov, id, l))
  {
    CreateChecks(w, id, prov);
    var w1 := RunStep(w, 0, YES);
    l := CreateInserts(w1, id, prov);
    assert Times(w, 0, YES, 3) == Times(w1, 0, YES, 2) == Times(RunStep(w1, 0, YES), 0, YES, 1);
  }

  lemma {:induction false} TimesAdd(w: World, t: Tid, e: Env, m: nat, n: nat)
    ensures Times(w, t, e, m + n) == Times(Times(w, t, e, m), t, e, n)
    decreases m
  {
    if m > 0 { TimesAdd(RunStep(w, t, e), t, e, m - 1, n); }
  }

  lemma DirectCreate(w: World, id: string)
    requires Init(w) && ValidVmId(id) && w.maxVMs > 0
    ensures Creating0(BeginStep(w, 0, CallCreate(id)), id, false)
  {
  }

  lemma ProvisionCreate(w: World, id: string)
    requires Init(w) && ValidVmId(id) && w.maxVMs > 0 && w.maxProvision > 0
    ensures Creating0(RunStep(BeginStep(w, 0, CallProvision(id)), 0, YES), id, true)
  {
    var w1 := BeginStep(w, 0, CallProvision(id));
    assert RunStep(w1, 0, YES) == ProvisionStep(w1, 0, ProvGate(id), YES);
  }

  // ---- ProvisionVM, thread 0 ----

  lemma ConfigureBegins(w: World, id: string, s: Still)
    requires Scene(w, id, s) && 0 in s.threads && s.threads[0] == CfEnter(0, Some(id)) && s.vm == Vm(Created, false)
    ensures Scene(RunStep(w, 0, YES), id,
                  s.(vm := Vm(Configuring, false), threads := s.threads[0 := CfSetup(0, Some(id))]))
  {
    SceneIsAt(w, id, s, 0);
    ConfigureEnters(w, 0, 0, Some(id), true);
    SceneMoves(w, id, s, 0, Vm(Configuring, false), s.lease, w.pool, Some(CfSetup(0, Some(id))));
  }

  function Furnish(l: Lease): Lease {
    l.(cleanup := [RemoveTap, RemoveFirewall])
  }

  lemma ConfigureFinishes(w: World, id: string, s: Still)
    requires Scene(w, id, s) && 0 in s.threads && s.threads[0] == CfSetup(0, Some(id))
    requires s.vm == Vm(Configuring, false) && !s.lease.released && s.lease.cleanup == []
    ensures Scene(Times(w, 0, YES, 3), id,
                  s.(vm := Vm(Configured, true), lease := Furnish(s.lease),
                     threads := s.threads[0 := StEnter(0, Some(id))]))
  {
    var e := ConfigureEnv(true, true, true, true, {});
    SceneIsAt(w, id, s, 0);
    SetupCommits(w, 0, 0, Some(id), s.vm, s.lease, w.pool, e);
    SceneMoves(w, id, s, 0, Vm(Configured, true), Furnish(s.lease), w.pool, Some(StEnter(0, Some(id))));
    var w1 := RunStep(w, 0, YES);
    assert Times(w, 0, YES, 3) == Times(w1, 0, YES, 2) == Times(RunStep(w1, 0, YES), 0, YES, 1);
    AbortIsNotLast(w, id, s);
  }

  /** The third of those steps is the last: it is no rollback. */
  lemma AbortIsNotLast(w: World, id: string, s: Still)
    requires Scene(w, id, s) && 0 in s.threads && s.threads[0] == CfSetup(0, Some(id))
    requires s.vm == Vm(Configuring, false) && !s.lease.released && s.lease.cleanup == []
    ensures SetupAlone(w, 0, ConfigureEnv(true, true, true, true, {})) ==
            RunStep(RunStep(RunStep(w, 0, YES), 0, YES), 0, YES)
  {
    SceneIsAt(w, id, s, 0);
    ConfigureSetsUp(w, 0, 0, Some(id), s.vm, s.lease, w.pool, YES);
    ConfigureBuilds(w, 0, 0, Some(id), s.vm, Furnish(s.lease), w.pool, YES);
    ConfigureEnds(w, 0, 0, s.vm, Furnish(s.lease), w.pool, CfCommit(0, Some(id)), YES);
  }

  lemma StartFinishes(w: World, id: string, s: Still)
    requires Scene(w, id, s) && 0 in s.threads && s.threads[0] == StEnter(0, Some(id)) && s.vm == Vm(Configured, true)
    ensures Scene(Times(w, 0, YES, 3), id, s.(vm := Vm(Running, true), threads := s.threads[0 := ProvExit]))
  {
    SceneIsAt(w, id, s, 0);
    StartEnters(w, 0, 0, Some(id));
    StartCalls(w, 0, 0, Some(id), Vm(Starting, true), s.lease, w.pool, YES);
    StartEnds(w, 0, 0, Vm(Starting, true), s.lease, w.pool, StDone(0, Some(id)));
    SceneMoves(w, id, s, 0, Vm(Running, true), s.lease, w.pool, Some(ProvExit));
    var w1 := RunStep(w, 0, YES);
    assert Times(w, 0, YES, 3) == Times(w1, 0, YES, 2) == Times(RunStep(w1, 0, YES), 0, YES, 1);
  }

  lemma StartIsRefused(w: World, id: string, s: Still)
    requires Scene(w, id, s) && 0 in s.threads && s.threads[0] == StEnter(0, Some(id)) && s.vm.state == Stopping
    ensures Scene(RunStep(w, 0, YES), id, s.(threads := s.threads[0 := SpEnter(0, Undo(id))]))
  {
    SceneIsAt(w, id, s, 0);
    StartEnters(w, 0, 0, Some(id));
    SceneMoves(w, id, s, 0, s.vm, s.lease, w.pool, Some(SpEnter(0, Undo(id))));
  }

  lemma TokenGoesBack(w: World, id: string, s: Still)
    requires Scene(w, id, s) && 0 in s.threads && s.threads[0] == ProvExit && s.tokens > 0
    ensures Scene(RunStep(w, 0, YES), id, s.(tokens := s.tokens - 1, threads := s.threads - {0}))
  {
    assert RunStep(w, 0, YES) == ProvisionStep(w, 0, ProvExit, YES);
  }

  // ---- DestroyVM ----

  lemma DestroyLooksUp(w: World, id: string, s: Still, t: Tid)
    requires Scene(w, id, s) && s.resident && t !in s.threads
    ensures Scene(RunStep(BeginStep(w, t, CallDestroy(id)), t, YES), id,
                  s.(threads := s.threads[t := SpEnter(0, Destroy(id))]))
  {
    var w1 := BeginStep(w, t, CallDestroy(id));
    assert RunStep(w1, t, YES) == TableStep(w1, t, DsLookup(id), YES);
    assert s.threads[t := DsLookup(id)][t := SpEnter(0, Destroy(id))] == s.threads[t := SpEnter(0, Destroy(id))];
  }

  /** The early return and the deletion: two steps of any remover. */
  lemma RemovedEarly(w: World, id: string, s: Still, t: Tid, k: Caller)
    requires Scene(w, id, s) && s.resident && t in s.threads && s.threads[t] == SpEnter(0, k)
    requires !k.Direct? && k.id == id && StopsEarly(s.vm.state)
    ensures Scene(RunStep(RunStep(w, t, YES), t, YES), id,
                  s.(resident := false, threads := Threads(s, t, AfterRemove(k))))
  {
    SceneIsAt(w, id, s, t);
    EarlyReturnHere(w, t, 0, k, YES);
    var w1 := Put(w, t, Some(Remove(0, k, true)));
    assert RunStep(w1, t, YES) == TableStep(w1, t, Remove(0, k, true), YES);
    assert map[id := 0] - {id} == map[];
  }

  lemma StopBegins(w: World, id: string, s: Still, t: Tid, k: Caller)
    requires Scene(w, id, s) && t in s.threads && s.threads[t] == SpEnter(0, k) && s.vm == Vm(Configured, true)
    ensures Scene(RunStep(w, t, YES), id, s.(vm := Vm(Stopping, true), threads := s.threads[t := SpKill(0, k, true)]))
  {
    SceneIsAt(w, id, s, t);
    StopEnters(w, t, 0, k);
    SceneMoves(w, id, s, t, Vm(Stopping, true), s.lease, w.pool, Some(SpKill(0, k, true)));
  }

  lemma NothingIsReleased(l: Lease)
    requires !l.released && l.cleanup == [RemoveTap, RemoveFirewall]
    ensures !AfterRelease(l, {0, 1}).released
  {
    RetainedEmpty(l.cleanup, {0, 1});
    assert SomeFails(l.cleanup, {0, 1}) by { assert 0 <= 0 < |l.cleanup| && 0 in {0, 1}; }
  }

  /** The rest of a Stop in which the host refuses everything. */
  lemma StopFails(w: World, id: string, s: Still, t: Tid)
    requires Scene(w, id, s) && t in s.threads && s.threads[t] == SpKill(0, Destroy(id), true)
    requires s.vm == Vm(Stopping, true) && !s.lease.released && s.lease.cleanup == [RemoveTap, RemoveFirewall]
    ensures var l := AfterRelease(s.lease, {0, 1});
            && !l.released
            && Scene(Times(w, t, NO, 4), id,
                     s.(vm := Vm(CleanupFailed, true), lease := l, threads := s.threads - {t}))
  {
    var k, v, l := Destroy(id), s.vm, AfterRelease(s.lease, {0, 1});
    NothingIsReleased(s.lease);
    SceneIsAt(w, id, s, t);
    StopGoesOn(w, t, 0, v, s.lease, w.pool, SpKill(0, k, true), NO);
    StopReleases(w, t, 0, k, v, s.lease, w.pool, false, NO);
    StopGoesOn(w, t, 0, v, l, w.pool, SpSocket(0, k, false, false), NO);
    StopExits(w, t, 0, v, l, w.pool, SpExit(0, k, false, false, false), NO);
    SceneMoves(w, id, s, t, Vm(CleanupFailed, true), l, w.pool, None);
    var w1 := RunStep(w, t, NO);
    var w2 := RunStep(w1, t, NO);
    assert Times(w, t, NO, 4) == Times(w1, t, NO, 3) == Times(w2, t, NO, 2) == Times(RunStep(w2, t, NO), t, NO, 1);
  }

  // ---- the runs ----

  /** No call is under way and the table is empty, yet this instance and lease are there. */
  ghost predicate Stray(w: World, v: Vm) {
    && w.threads == map[] && w.table == map[]
    && 0 in w.insts && w.insts[0].vm == v && Owns(w, Abandoned(0), 0) && Live(w, 0)
  }

  lemma SceneStrays(w: World, id: string, s: Still)
    requires Scene(w, id, s) && !s.resident && !s.lease.released && s.threads == map[]
    ensures Stray(w, s.vm)
  {
  }

  function CreateThenDestroy(id: string): seq<Event> {
    [Begin(0, CallCreate(id))] + Runs(0, YES, 3) + [Begin(0, CallDestroy(id))] + Runs(0, YES, 3)
  }

  lemma {:induction false} DestroyEarly(w: World, id: string, s: Still, t: Tid)
    requires Scene(w, id, s) && s.resident && t !in s.threads && StopsEarly(s.vm.state)
    ensures Scene(Times(BeginStep(w, t, CallDestroy(id)), t, YES, 3), id, s.(resident := false))
  {
    var w1 := BeginStep(w, t, CallDestroy(id));
    var w2 := RunStep(w1, t, YES);
    DestroyLooksUp(w, id, s, t);
    var s2 := s.(threads := s.threads[t := SpEnter(0, Destroy(id))]);
    RemovedEarly(w2, id, s2, t, Destroy(id));
    assert s2.threads - {t} == s.threads;
    assert Times(w1, t, YES, 3) == Times(w2, t, YES, 2) == Times(RunStep(w2, t, YES), t, YES, 1);
  }

  /** Destroying a VM that was never configured empties the table and reports success, with its lease still out. The two
      calls do not overlap. */
  lemma DestroyBeforeConfigureLeaks(w: World, id: string)
    requires Init(w) && ValidVmId(id) && w.maxVMs > 0
    ensures Stray(Exec(w, CreateThenDestroy(id)), Vm(Created, false))
  {
    var evs := [Begin(0, CallCreate(id))] + Runs(0, YES, 3);
    assert [] + evs == evs;
    assert [] + [Begin(0, CallCreate(id))] + Runs(0, YES, 3) == evs;
    ExecCall(w, [], 0, CallCreate(id), 3);
    DirectCreate(w, id);
    var l := CreateRuns(BeginStep(w, 0, CallCreate(id)), id, false);
    ExecCall(w, evs, 0, CallDestroy(id), 3);
    DestroyEarly(Exec(w, evs), id, Made(false, id, l), 0);
    SceneStrays(Exec(w, CreateThenDestroy(id)), id, Made(false, id, l).(resident := false));
  }

  /** ProvisionVM up to its n-th step after CreateVM has inserted the VM. */
  lemma ProvisionBegins(w: World, id: string, n: nat) returns (l: Lease, w1: World)
    requires Init(w) && ValidVmId(id) && w.maxVMs > 0 && w.maxProvision > 0
    ensures !l.released && l.cleanup == [] && Scene(w1, id, Made(true, id, l))
    ensures Exec(w, [Begin(0, CallProvision(id))] + Runs(0, YES, 4 + n)) == Times(w1, 0, YES, n)
  {
    var w2 := BeginStep(w, 0, CallProvision(id));
    assert [] + [Begin(0, CallProvision(id))] == [Begin(0, CallProvision(id))];
    ExecCall(w, [], 0, CallProvision(id), 4 + n);
    ProvisionCreate(w, id);
    l := CreateRuns(RunStep(w2, 0, YES), id, true);
    w1 := Times(RunStep(w2, 0, YES), 0, YES, 3);
    TimesAdd(RunStep(w2, 0, YES), 0, YES, 3, n);
  }

  /** Thread 0 is in Configure, about to set up the network. */
  function InSetup(id: string, l: Lease, resident: bool): Still {
    Still(Vm(Configuring, false), l, resident, 1, map[0 := CfSetup(0, Some(id))])
  }

  function IntoConfigure(id: string): seq<Event> {
    [Begin(0, CallProvision(id))] + Runs(0, YES, 5)
  }

  /** Thread 0 provisions; once it is in Configure, thread 1 destroys; then thread 0 goes on. */
  function DestroyInConfigure(id: string): seq<Event> {
    IntoConfigure(id) + [Begin(1, CallDestroy(id))] + Runs(1, YES, 3) + Runs(0, YES, 7)
  }

  lemma ConfigureIsEntered(w: World, id: string) returns (l: Lease)
    requires Init(w) && ValidVmId(id) && w.maxVMs > 0 && w.maxProvision > 0
    ensures !l.released && l.cleanup == [] && Scene(Exec(w, IntoConfigure(id)), id, InSetup(id, l, true))
  {
    var w1;
    l, w1 := ProvisionBegins(w, id, 1);
    assert Times(w1, 0, YES, 1) == RunStep(w1, 0, YES);
    ConfigureBegins(w1, id, Made(true, id, l));
    assert Made(true, id, l).threads[0 := CfSetup(0, Some(id))] == map[0 := CfSetup(0, Some(id))];
  }

  /** Configure, Start and the end of ProvisionVM, from where Configure sets up the network. */
  lemma ProvisionFinishes(w: World, id: string, s: Still)
    requires Scene(w, id, s) && s.threads == map[0 := CfSetup(0, Some(id))] && s.tokens == 1
    requires s.vm == Vm(Configuring, false) && !s.lease.released && s.lease.cleanup == []
    ensures Scene(Times(w, 0, YES, 7), id,
                  s.(vm := Vm(Running, true), lease := Furnish(s.lease), tokens := 0, threads := map[]))
  {
    TimesAdd(w, 0, YES, 3, 4);
    var w1 := Times(w, 0, YES, 3);
    ConfigureFinishes(w, id, s);
    var s1 := s.(vm := Vm(Configured, true), lease := Furnish(s.lease),
                 threads := s.threads[0 := StEnter(0, Some(id))]);
    TimesAdd(w1, 0, YES, 3, 1);
    var w2 := Times(w1, 0, YES, 3);
    StartFinishes(w1, id, s1);
    var s2 := s1.(vm := Vm(Running, true), threads := s1.threads[0 := ProvExit]);
    TokenGoesBack(w2, id, s2);
    assert s2.threads - {0} == map[];
    assert Times(w2, 0, YES, 1) == RunStep(w2, 0, YES);
  }

  /** A DestroyVM that comes during Configure reports success, and ProvisionVM then reports success too: the VM runs,
      with its machine and its lease, and is not in the table. */
  lemma DestroyDuringConfigureStrands(w: World, id: string)
    requires Init(w) && ValidVmId(id) && w.maxVMs > 0 && w.maxProvision > 0
    ensures Stray(Exec(w, DestroyInConfigure(id)), Vm(Running, true))
  {
    var evs := IntoConfigure(id) + [Begin(1, CallDestroy(id))] + Runs(1, YES, 3);
    var l := ConfigureIsEntered(w, id);
    ExecCall(w, IntoConfigure(id), 1, CallDestroy(id), 3);
    DestroyEarly(Exec(w, IntoConfigure(id)), id, InSetup(id, l, true), 1);
    var w1 := Exec(w, evs);
    assert Scene(w1, id, InSetup(id, l, false));
    ExecRuns(w, evs, 0, YES, 7);
    ProvisionFinishes(w1, id, InSetup(id, l, false));
    SceneStrays(Times(w1, 0, YES, 7), id, Still(Vm(Running, true), Furnish(l), false, 0, map[]));
  }

  function IntoStart(id: string): seq<Event> {
    [Begin(0, CallProvision(id))] + Runs(0, YES, 8)
  }

  function IntoTeardown(id: string): seq<Event> {
    IntoStart(id) + [Begin(1, CallDestroy(id))] + Runs(1, YES, 2)
  }

  /** Thread 0 provisions up to the end of Configure; thread 1 destroys up to its teardown; thread 0 then fails to start
      and undoes; and the teardown of thread 1 fails. */
  function DestroyBeforeStart(id: string): seq<Event> {
    IntoTeardown(id) + Runs(0, YES, 4) + Runs(1, NO, 4)
  }

  /** Thread 0, refused by Start, undoes: its Stop returns early because thread 1 is stopping the VM. */
  lemma UndoEarly(w: World, id: string, s: Still)
    requires Scene(w, id, s) && s.resident && s.tokens == 1 && s.vm.state == Stopping
    requires 0 in s.threads && s.threads[0] == StEnter(0, Some(id))
    ensures Scene(Times(w, 0, YES, 4), id, s.(resident := false, tokens := 0, threads := s.threads - {0}))
  {
    var w1 := RunStep(w, 0, YES);
    StartIsRefused(w, id, s);
    var s1 := s.(threads := s.threads[0 := SpEnter(0, Undo(id))]);
    RemovedEarly(w1, id, s1, 0, Undo(id));
    var w3 := RunStep(RunStep(w1, 0, YES), 0, YES);
    var s3 := s1.(resident := false, threads := s1.threads[0 := ProvExit]);
    TokenGoesBack(w3, id, s3);
    assert s3.threads - {0} == s.threads - {0};
    assert Times(w, 0, YES, 4) == Times(w1, 0, YES, 3) == Times(RunStep(w1, 0, YES), 0, YES, 2)
        == Times(w3, 0, YES, 1) == RunStep(w3, 0, YES);
  }

  lemma ConfigureAll(w: World, id: string, l: Lease)
    requires Scene(w, id, Made(true, id, l)) && !l.released && l.cleanup == []
    ensures Scene(Times(w, 0, YES, 4), id,
                  Still(Vm(Configured, true), Furnish(l), true, 1, map[0 := StEnter(0, Some(id))]))
  {
    var s0, w1 := Made(true, id, l), RunStep(w, 0, YES);
    ConfigureBegins(w, id, s0);
    var s1 := s0.(vm := Vm(Configuring, false), threads := s0.threads[0 := CfSetup(0, Some(id))]);
    ConfigureFinishes(w1, id, s1);
    assert s1.threads[0 := StEnter(0, Some(id))] == map[0 := StEnter(0, Some(id))];
    assert Times(w, 0, YES, 4) == Times(w1, 0, YES, 3);
  }

  lemma DestroyToTeardown(w: World, id: string, s: Still)
    requires Scene(w, id, s) && s.resident && 1 !in s.threads && s.vm == Vm(Configured, true)
    ensures Scene(Times(BeginStep(w, 1, CallDestroy(id)), 1, YES, 2), id,
                  s.(vm := Vm(Stopping, true), threads := s.threads[1 := SpKill(0, Destroy(id), true)]))
  {
    var w1 := BeginStep(w, 1, CallDestroy(id));
    var w2 := RunStep(w1, 1, YES);
    DestroyLooksUp(w, id, s, 1);
    var s2 := s.(threads := s.threads[1 := SpEnter(0, Destroy(id))]);
    StopBegins(w2, id, s2, 1, Destroy(id));
    assert s2.threads[1 := SpKill(0, Destroy(id), true)] == s.threads[1 := SpKill(0, Destroy(id), true)];
    assert Times(w1, 1, YES, 2) == Times(w2, 1, YES, 1) == RunStep(w2, 1, YES);
  }

  function AtStartOf(id: string, l: Lease): Still {
    Still(Vm(Configured, true), Furnish(l), true, 1, map[0 := StEnter(0, Some(id))])
  }

  /** Thread 1 is about to kill the machine, and thread 0 is where it is put. */
  function InTeardown(id: string, l: Lease, first: Option<Pc>): Still {
    var others := map[1 := SpKill(0, Destroy(id), true)];
    match first
    case Some(pc) => Still(Vm(Stopping, true), Furnish(l), true, 1, others[0 := pc])
    case None => Still(Vm(Stopping, true), Furnish(l), false, 0, others)
  }

  lemma StartIsReached(w: World, id: string) returns (l: Lease)
    requires Init(w) && ValidVmId(id) && w.maxVMs > 0 && w.maxProvision > 0
    ensures !l.released && l.cleanup == [] && Scene(Exec(w, IntoStart(id)), id, AtStartOf(id, l))
  {
    var w1;
    l, w1 := ProvisionBegins(w, id, 4);
    ConfigureAll(w1, id, l);
  }

  lemma TeardownIsEntered(w: World, id: string) returns (l: Lease)
    requires Init(w) && ValidVmId(id) && w.maxVMs > 0 && w.maxProvision > 0
    ensures !l.released && l.cleanup == []
    ensures Scene(Exec(w, IntoTeardown(id)), id, InTeardown(id, l, Some(StEnter(0, Some(id)))))
  {
    l := StartIsReached(w, id);
    ExecCall(w, IntoStart(id), 1, CallDestroy(id), 2);
    DestroyToTeardown(Exec(w, IntoStart(id)), id, AtStartOf(id, l));
    assert AtStartOf(id, l).threads[1 := SpKill(0, Destroy(id), true)] ==
           InTeardown(id, l, Some(StEnter(0, Some(id)))).threads;
  }

  lemma UndoneInTeardown(w: World, id: string, l: Lease)
    requires Scene(w, id, InTeardown(id, l, Some(StEnter(0, Some(id)))))
    ensures Scene(Times(w, 0, YES, 4), id, InTeardown(id, l, None))
  {
    var s := InTeardown(id, l, Some(StEnter(0, Some(id))));
    UndoEarly(w, id, s);
    assert s.threads - {0} == InTeardown(id, l, None).threads;
  }

  /** A DestroyVM and a ProvisionVM both report failure, Configure's checks having passed, and the VM is left in
      CleanupFailed with its machine and its lease, out of the table, where Reconcile would look for it. */
  lemma CleanupFailureOutOfSight(w: World, id: string)
    requires Init(w) && ValidVmId(id) && w.maxVMs > 0 && w.maxProvision > 0
    ensures Stray(Exec(w, DestroyBeforeStart(id)), Vm(CleanupFailed, true))
  {
    var l := TeardownIsEntered(w, id);
    var w1 := Exec(w, IntoTeardown(id));
    ExecRuns(w, IntoTeardown(id), 0, YES, 4);
    UndoneInTeardown(w1, id, l);
    var w2 := Times(w1, 0, YES, 4);
    ExecRuns(w, IntoTeardown(id) + Runs(0, YES, 4), 1, NO, 4);
    StopFails(w2, id, InTeardown(id, l, None), 1);
    assert InTeardown(id, l, None).threads - {1} == map[];
    var left := AfterRelease(Furnish(l), {0, 1});
    SceneStrays(Times(w2, 1, NO, 4), id, Still(Vm(CleanupFailed, true), left, false, 0, map[]));
  }
}
