/** Reconcile among other calls: whom it stops, whom it finds, and what it does alone. */
module VmReconcile {
  import opened Common
  import opened Lifecycle
  import opened Manager
  import opened VmProtocol
  import opened VmInvariant
  import opened VmSteps
  import opened VmRuns
  import opened VmTheorems
  import opened VmRemoval

  /** Teardown has been tried: it failed, is being tried again, or is done. */
  predicate Failing(s: State) {
    s == CleanupFailed || s == Stopping || s == Stopped
  }

  // ---- whom it stops ----

  /** The instances Reconcile still means to stop, or is stopping, at this position. */
  function Targets(pc: Pc): set<Ref> {
    match pc
    case RcScan(_, found) => Refs(found)
    case SpEnter(r, k) => Pending(r, k)
    case SpKill(r, k, _) => Pending(r, k)
    case SpRelease(r, k, _) => Pending(r, k)
    case SpSocket(r, k, _, _) => Pending(r, k)
    case SpExit(r, k, _, _, _) => Pending(r, k)
    case Remove(r, k, _) => Pending(r, k)
    case _ => {}
  }

  function Refs(items: seq<Item>): set<Ref> {
    set x | x in items :: x.1
  }

  function Pending(r: Ref, k: Caller): set<Ref> {
    if k.Retry? then {r} + Refs(k.rest) else {}
  }

  ghost predicate TargetsFail(w: World) {
    forall t: Tid, r: Ref :: t in w.threads && r in Targets(w.threads[t]) ==>
      r in w.insts && Failing(w.insts[r].vm.state)
  }

  lemma ConfigureKeepsFailing(w: World, t: Tid, e: Env, r: Ref)
    requires Near(w, t) && InConfigure(w.threads[t]) && r in w.insts && Failing(w.insts[r].vm.state)
    ensures var w' := ConfigureStep(w, t, w.threads[t], e); r in w'.insts && Failing(w'.insts[r].vm.state)
  {
  }

  lemma StartKeepsFailing(w: World, t: Tid, e: Env, r: Ref)
    requires Near(w, t) && InStart(w.threads[t]) && r in w.insts && Failing(w.insts[r].vm.state)
    ensures var w' := StartStep(w, t, w.threads[t], e); r in w'.insts && Failing(w'.insts[r].vm.state)
  {
  }

  lemma StopKeepsFailing(w: World, t: Tid, e: Env, r: Ref)
    requires t in w.threads && InStop(w.threads[t]) && r in w.insts && Failing(w.insts[r].vm.state)
    ensures var w' := StopStep(w, t, w.threads[t], e); r in w'.insts && Failing(w'.insts[r].vm.state)
  {
  }

  lemma RunKeepsFailing(w: World, t: Tid, e: Env, r: Ref)
    requires Near(w, t) && r in w.insts && Failing(w.insts[r].vm.state)
    ensures r in RunStep(w, t, e).insts && Failing(RunStep(w, t, e).insts[r].vm.state)
  {
    RunStepIs(w, t, e);
    if InConfigure(w.threads[t]) {
      ConfigureKeepsFailing(w, t, e, r);
    } else if InStart(w.threads[t]) {
      StartKeepsFailing(w, t, e, r);
    } else if InStop(w.threads[t]) {
      StopKeepsFailing(w, t, e, r);
    } else if InCreate(w.threads[t]) {
      CreateOnInsts(w, t, e, r);
    } else if InTableSection(w.threads[t]) {
      TableOnInsts(w, t, e);
    }
  }

  /** A teardown once tried is never taken back. */
  lemma FailingStays(w: World, ev: Event, r: Ref)
    requires Inv(w) && r in w.insts && Failing(w.insts[r].vm.state)
    ensures r in Step(w, ev).insts && Failing(Step(w, ev).insts[r].vm.state)
  {
    match ev
    case Begin(t, call) => CallKeepsInsts(w, t, call);
    case Run(t, e) =>
      if t in w.threads {
        ThreadIsNear(w, t);
        RunKeepsFailing(w, t, e, r);
      }
  }

  // ---- where targets come from ----

  lemma NextTargets(items: seq<Item>)
    ensures NextRetry(items).Some? ==> Targets(NextRetry(items).value) == Refs(items)
  {
    if items != [] {
      var first, rest := items[0], items[1..];
      assert items == [first] + rest;
      assert Refs(items) == {first.1} + Refs(rest);
    }
  }

  lemma AfterRemoveTargets(r: Ref, k: Caller)
    ensures AfterRemove(k).Some? ==> Targets(AfterRemove(k).value) <= Pending(r, k)
  {
    if k.Retry? { NextTargets(k.rest); }
  }

  lemma AfterStopTargets(r: Ref, k: Caller, ok: bool, early: bool)
    ensures AfterStop(r, k, ok, early).Some? ==> Targets(AfterStop(r, k, ok, early).value) <= Pending(r, k)
  {
    AfterRemoveTargets(r, k);
  }

  /** Thread t of the new world means to stop only what it meant to stop before, or what is failing. */
  ghost predicate TargetsFrom(w: World, w': World, t: Tid) {
    t in w'.threads ==> forall r: Ref :: r in Targets(w'.threads[t]) ==>
      (t in w.threads && r in Targets(w.threads[t])) || (r in w.insts && w.insts[r].vm.state == CleanupFailed)
  }

  lemma StopTargets(w: World, t: Tid, e: Env)
    requires t in w.threads && InStop(w.threads[t])
    ensures TargetsFrom(w, StopStep(w, t, w.threads[t], e), t)
  {
    var pc := w.threads[t];
    AfterStopTargets(pc.r, pc.k, true, true);
    if pc.SpExit? { AfterStopTargets(pc.r, pc.k, pc.stopped && pc.released && pc.socketGone, false); }
  }

  lemma ConfigureTargets(w: World, t: Tid, e: Env)
    requires t in w.threads && InConfigure(w.threads[t])
    ensures TargetsFrom(w, ConfigureStep(w, t, w.threads[t], e), t)
  {
  }

  lemma StartTargets(w: World, t: Tid, e: Env)
    requires t in w.threads && InStart(w.threads[t])
    ensures TargetsFrom(w, StartStep(w, t, w.threads[t], e), t)
  {
  }

  lemma CreateTargets(w: World, t: Tid, e: Env)
    requires t in w.threads && InCreate(w.threads[t])
    ensures TargetsFrom(w, CreateStep(w, t, w.threads[t], e), t)
  {
  }

  lemma ScanTargets(w: World, t: Tid, e: Env)
    requires t in w.threads && w.threads[t].RcScan?
    ensures TargetsFrom(w, TableStep(w, t, w.threads[t], e), t)
  {
    NextTargets(w.threads[t].found);
  }

  lemma RemoveTargets(w: World, t: Tid, e: Env)
    requires t in w.threads && w.threads[t].Remove?
    ensures TargetsFrom(w, TableStep(w, t, w.threads[t], e), t)
  {
    AfterRemoveTargets(w.threads[t].r, w.threads[t].k);
  }

  lemma LookupTargets(w: World, t: Tid, e: Env)
    requires t in w.threads && (w.threads[t].DsLookup? || w.threads[t].RcLock?)
    ensures TargetsFrom(w, TableStep(w, t, w.threads[t], e), t)
  {
  }

  lemma RunTargets(w: World, t: Tid, e: Env)
    requires t in w.threads
    ensures TargetsFrom(w, RunStep(w, t, e), t)
  {
    RunStepIs(w, t, e);
    if InConfigure(w.threads[t]) {
      ConfigureTargets(w, t, e);
    } else if InStart(w.threads[t]) {
      StartTargets(w, t, e);
    } else if InStop(w.threads[t]) {
      StopTargets(w, t, e);
    } else if InCreate(w.threads[t]) {
      CreateTargets(w, t, e);
    } else if w.threads[t].RcScan? {
      ScanTargets(w, t, e);
    } else if w.threads[t].Remove? {
      RemoveTargets(w, t, e);
    } else if InTableSection(w.threads[t]) {
      LookupTargets(w, t, e);
    }
  }

  lemma CallTargets(w: World, t: Tid, call: Call)
    ensures TargetsFrom(w, BeginStep(w, t, call), t)
  {
  }

  lemma ActorTargets(w: World, ev: Event)
    ensures TargetsFrom(w, Step(w, ev), ev.t)
  {
    match ev
    case Begin(t, call) => CallTargets(w, t, call);
    case Run(t, e) => if t in w.threads { RunTargets(w, t, e); }
  }

  /** If every thread's targets come from before, and whatever was failing still is, the targets fail. */
  lemma TargetsCarry(w: World, w': World)
    requires TargetsFail(w) && forall t: Tid :: TargetsFrom(w, w', t)
    requires forall r: Ref :: r in w.insts && Failing(w.insts[r].vm.state) ==>
               r in w'.insts && Failing(w'.insts[r].vm.state)
    ensures TargetsFail(w')
  {
    forall t: Tid, r: Ref | t in w'.threads && r in Targets(w'.threads[t])
      ensures r in w'.insts && Failing(w'.insts[r].vm.state)
    {
      assert TargetsFrom(w, w', t);
    }
  }

  lemma OthersStand(w: World, ev: Event, t: Tid)
    requires Inv(w) && t != ev.t && t in Step(w, ev).threads
    ensures t in w.threads && Step(w, ev).threads[t] == w.threads[t]
  {
    var m := StepIsMove(w, ev);
    MoveOnOthers(w, ev.t, m, t);
  }

  lemma SameTargets(w: World, w': World, t: Tid)
    requires t in w'.threads ==> t in w.threads && w'.threads[t] == w.threads[t]
    ensures TargetsFrom(w, w', t)
  {
  }

  lemma AllTargetsFrom(w: World, ev: Event, t: Tid)
    requires Inv(w)
    ensures TargetsFrom(w, Step(w, ev), t)
  {
    if t == ev.t {
      ActorTargets(w, ev);
    } else {
      if t in Step(w, ev).threads { OthersStand(w, ev, t); }
      SameTargets(w, Step(w, ev), t);
    }
  }

  lemma StepKeepsTargets(w: World, ev: Event)
    requires Inv(w) && TargetsFail(w)
    ensures TargetsFail(Step(w, ev))
  {
    var w' := Step(w, ev);
    forall t: Tid ensures TargetsFrom(w, w', t) { AllTargetsFrom(w, ev, t); }
    forall r: Ref | r in w.insts && Failing(w.insts[r].vm.state)
      ensures r in w'.insts && Failing(w'.insts[r].vm.state)
    {
      FailingStays(w, ev, r);
    }
    TargetsCarry(w, w');
  }

  lemma {:induction false} TargetsAlwaysFail(w0: World, evs: seq<Event>)
    requires Init(w0)
    ensures TargetsFail(Exec(w0, evs))
    decreases |evs|
  {
    if evs != [] {
      TargetsAlwaysFail(w0, evs[..|evs| - 1]);
      AlwaysInv(w0, evs[..|evs| - 1]);
      StepKeepsTargets(Exec(w0, evs[..|evs| - 1]), evs[|evs| - 1]);
    }
  }

  /** Reconcile never stops a VM that is up: in every reachable state whatever it has collected, waits to stop or is
      stopping has had a teardown that failed, is under way again, or is done; and its Stop goes to work only on an
      instance in CleanupFailed. */
  lemma ReconcileSparesTheLiving(w: World, t: Tid, r: Ref)
    requires Reachable(w) && t in w.threads && r in Targets(w.threads[t])
    ensures r in w.insts && Failing(w.insts[r].vm.state)
    ensures w.threads[t].SpEnter? && w.threads[t].r == r && !StopsEarly(w.insts[r].vm.state) ==>
              w.insts[r].vm.state == CleanupFailed
  {
    var w0, evs :| Init(w0) && w == Exec(w0, evs);
    TargetsAlwaysFail(w0, evs);
  }

  // ---- whom it finds ----

  predicate Scanning(w: World, t: Tid) {
    t in w.threads && w.threads[t].RcScan?
  }

  /** The scan of thread t still has entry id before it, or has collected it. */
  predicate Seen(w: World, t: Tid, id: string, r: Ref) {
    Scanning(w, t) && (id in w.threads[t].todo || (id, r) in w.threads[t].found)
  }

  predicate EntryFails(w: World, id: string, r: Ref) {
    id in w.table && w.table[id] == r && r in w.insts && w.insts[r].vm.state == CleanupFailed
  }

  lemma MoveUnderLock(w: World, t: Tid, m: Move)
    requires Fits(w, t, m) && w.lock.Some?
    ensures Moved(w, t, m).table == w.table
  {
  }

  /** While a scan holds the manager lock the table does not change. */
  lemma TableStands(w: World, ev: Event, t: Tid)
    requires Inv(w) && Scanning(w, t)
    ensures Step(w, ev).table == w.table
  {
    var m := StepIsMove(w, ev);
    assert w.lock == Some(t);
    MoveUnderLock(w, ev.t, m);
  }

  lemma OwnScanSees(w: World, t: Tid, e: Env, id: string, r: Ref)
    requires Seen(w, t, id, r) && EntryFails(w, id, r) && Scanning(RunStep(w, t, e), t)
    ensures Seen(RunStep(w, t, e), t, id, r)
  {
    assert RunStep(w, t, e) == TableStep(w, t, w.threads[t], e);
    var found := w.threads[t].found;
    assert forall x :: x in found ==> x in found + [(e.pick, r)];
    assert (id, r) in found + [(id, r)];
  }

  lemma ScanSees(w: World, ev: Event, t: Tid, id: string, r: Ref)
    requires Inv(w) && Seen(w, t, id, r) && EntryFails(w, id, r) && Scanning(Step(w, ev), t)
    ensures Seen(Step(w, ev), t, id, r)
  {
    if ev.t != t {
      OthersStand(w, ev, t);
    } else if ev.Run? {
      OwnScanSees(w, t, ev.env, id, r);
    }
  }

  /** All along the run thread t scans and the entry is a failed one. */
  ghost predicate FailsThroughout(w: World, evs: seq<Event>, t: Tid, id: string, r: Ref) {
    forall k :: 0 <= k <= |evs| ==> Scanning(Exec(w, evs[..k]), t) && EntryFails(Exec(w, evs[..k]), id, r)
  }

  lemma ThroughoutUpTo(w: World, evs: seq<Event>, t: Tid, id: string, r: Ref)
    requires FailsThroughout(w, evs, t, id, r)
    ensures Scanning(Exec(w, evs), t) && EntryFails(Exec(w, evs), id, r)
    ensures evs != [] ==> FailsThroughout(w, evs[..|evs| - 1], t, id, r)
  {
    assert evs[..|evs|] == evs;
    if evs != [] {
      var init := evs[..|evs| - 1];
      assert forall k :: 0 <= k <= |init| ==> init[..k] == evs[..k];
    }
  }

  lemma {:induction false} ReachableAfter(w: World, evs: seq<Event>)
    requires Reachable(w)
    ensures Reachable(Exec(w, evs))
    decreases |evs|
  {
    if evs != [] {
      ReachableAfter(w, evs[..|evs| - 1]);
      ReachableStep(Exec(w, evs[..|evs| - 1]), evs[|evs| - 1]);
    }
  }

  lemma {:induction false} SeenThroughout(w: World, evs: seq<Event>, t: Tid, id: string, r: Ref)
    requires Reachable(w) && Seen(w, t, id, r) && FailsThroughout(w, evs, t, id, r)
    ensures Seen(Exec(w, evs), t, id, r)
    decreases |evs|
  {
    if evs != [] {
      var init := evs[..|evs| - 1];
      ThroughoutUpTo(w, evs, t, id, r);
      ThroughoutUpTo(w, init, t, id, r);
      SeenThroughout(w, init, t, id, r);
      ReachableAfter(w, init);
      ReachableInv(Exec(w, init));
      ScanSees(Exec(w, init), evs[|evs| - 1], t, id, r);
    }
  }

  /** A scan misses no failure: however other calls go on meanwhile, an entry that is in CleanupFailed from the moment
      the scan takes the lock until it has looked at every entry is collected. */
  lemma ScanFindsEveryFailure(w: World, evs: seq<Event>, t: Tid, id: string, r: Ref)
    requires Reachable(w) && t in w.threads && w.threads[t] == RcScan(w.table.Keys, [])
    requires FailsThroughout(w, evs, t, id, r)
    ensures var v := Exec(w, evs);
            Scanning(v, t) && (v.threads[t].todo == {} ==> (id, r) in v.threads[t].found)
  {
    assert evs[..0] == [];
    assert EntryFails(Exec(w, evs[..0]), id, r);
    ThroughoutUpTo(w, evs, t, id, r);
    SeenThroughout(w, evs, t, id, r);
  }
}
