/** What deleting a VM from the table leaves behind, when the calls on it may overlap. */
module VmRemoval {
  import opened Common
  import opened Lifecycle
  import opened Manager
  import opened VmProtocol
  import opened VmInvariant
  import opened VmSteps
  import opened VmRuns
  import opened VmTheorems

  /** The position of a Stop about to take the instance lock, called to remove the VM from the table. */
  predicate AboutToRemove(w: World, t: Tid) {
    t in w.threads && w.threads[t].SpEnter? && !w.threads[t].k.Direct?
  }

  /** Nothing of the instance is left on the host, and no call under way will change that. */
  predicate Settled(w: World, r: Ref) {
    && r in w.insts && w.insts[r].net in w.leases && w.leases[w.insts[r].net].released
    && !w.insts[r].vm.machine
    && (w.insts[r].vm.state == Created || w.insts[r].vm.state == Configuring || w.insts[r].vm.state == Stopped)
  }

  /** An instance that is not settled has its lease out, a machine, or a teardown that is under way or has failed. */
  lemma UnsettledMeans(w: World, r: Ref)
    requires Reachable(w) && r in w.insts
    ensures !Settled(w, r) <==>
            || Live(w, w.insts[r].net) || w.insts[r].vm.machine
            || w.insts[r].vm.state == Stopping || w.insts[r].vm.state == CleanupFailed
  {
    ReachableInv(w);
    InstanceIsNear(w, r);
  }

  // ---- what a Stop by a remover reports ----

  lemma EarlyReturnHere(w: World, t: Tid, r: Ref, k: Caller, e: Env)
    requires t in w.threads && w.threads[t] == SpEnter(r, k) && !k.Direct? && r in w.insts && w.insts[r].net in w.leases
    ensures RunStep(w, t, e) ==
            if StopsEarly(w.insts[r].vm.state) then Put(w, t, Some(Remove(r, k, true)))
            else Put(SetVm(w, r, w.insts[r].vm.(state := Stopping)), t, Some(SpKill(r, k, w.insts[r].vm.machine)))
  {
    assert RunStep(w, t, e) == StopStep(w, t, SpEnter(r, k), e);
  }

  lemma RemoverIsNear(w: World, t: Tid)
    requires Near(w, t) && AboutToRemove(w, t)
    ensures var SpEnter(r, k) := w.threads[t]; r in w.insts && w.insts[r].net in w.leases && w.insts[r].id == k.id
  {
  }

  lemma RemoverHasInstance(w: World, t: Tid)
    requires Inv(w) && AboutToRemove(w, t)
    ensures var SpEnter(r, k) := w.threads[t]; r in w.insts && w.insts[r].net in w.leases && w.insts[r].id == k.id
  {
    ThreadIsNear(w, t);
    RemoverIsNear(w, t);
  }

  /** A remover's Stop goes straight on to the deletion exactly in the five states in which it has nothing to do. */
  lemma EarlyReturnWhen(w: World, t: Tid, e: Env)
    requires Reachable(w) && AboutToRemove(w, t)
    ensures var r, w' := w.threads[t].r, RunStep(w, t, e);
            && r in w.insts && t in w'.threads
            && (w'.threads[t] == Remove(r, w.threads[t].k, true) <==> StopsEarly(w.insts[r].vm.state))
            && (StopsEarly(w.insts[r].vm.state) ==> w'.insts == w.insts && w'.leases == w.leases)
  {
    ReachableInv(w);
    RemoverHasInstance(w, t);
    EarlyReturnHere(w, t, w.threads[t].r, w.threads[t].k, e);
  }

  lemma LateRemovalNear(w: World, t: Tid)
    requires Near(w, t) && w.threads[t].Remove? && !w.threads[t].early
    ensures var r := w.threads[t].r;
            Settled(w, r) && w.insts[r].vm == Vm(Stopped, false) && w.leases[w.insts[r].net].cleanup == []
  {
  }

  /** A remover whose Stop did its work has a stopped VM in hand: no machine, and the lease is back. */
  lemma LateRemovalIsClean(w: World, t: Tid)
    requires Reachable(w) && t in w.threads && w.threads[t].Remove? && !w.threads[t].early
    ensures var r := w.threads[t].r;
            Settled(w, r) && w.insts[r].vm == Vm(Stopped, false) && w.leases[w.insts[r].net].cleanup == []
  {
    ReachableInv(w);
    ThreadIsNear(w, t);
    LateRemovalNear(w, t);
  }

  // ---- settled for good ----

  /** From one vm to the next, instance r stays as a settled one may be. */
  predicate VmSettles(w: World, w': World, r: Ref) {
    && r in w.insts && r in w'.insts
    && (w'.insts[r].vm == w.insts[r].vm
        || (!w'.insts[r].vm.machine && (w'.insts[r].vm.state == Created || w'.insts[r].vm.state == Configuring)))
  }

  lemma ConfigureKeepsSettled(w: World, t: Tid, e: Env, r: Ref)
    requires Near(w, t) && InConfigure(w.threads[t]) && Settled(w, r)
    ensures VmSettles(w, ConfigureStep(w, t, w.threads[t], e), r)
  {
  }

  lemma StartKeepsSettled(w: World, t: Tid, e: Env, r: Ref)
    requires Near(w, t) && InStart(w.threads[t]) && Settled(w, r)
    ensures VmSettles(w, StartStep(w, t, w.threads[t], e), r)
  {
  }

  lemma StopKeepsSettled(w: World, t: Tid, e: Env, r: Ref)
    requires Near(w, t) && InStop(w.threads[t]) && Settled(w, r)
    ensures VmSettles(w, StopStep(w, t, w.threads[t], e), r)
  {
  }

  lemma CreateKeepsInstance(w: World, t: Tid, e: Env, r: Ref)
    requires t in w.threads && r in w.insts && InCreate(w.threads[t])
    ensures VmSettles(w, CreateStep(w, t, w.threads[t], e), r)
  {
  }

  lemma TableKeepsInstance(w: World, t: Tid, e: Env, r: Ref)
    requires t in w.threads && r in w.insts && InTableSection(w.threads[t])
    ensures VmSettles(w, TableStep(w, t, w.threads[t], e), r)
  {
  }

  lemma RunStepIs(w: World, t: Tid, e: Env)
    requires t in w.threads
    ensures var pc := w.threads[t];
            RunStep(w, t, e) ==
            if InConfigure(pc) then ConfigureStep(w, t, pc, e)
            else if InStart(pc) then StartStep(w, t, pc, e)
            else if InStop(pc) then StopStep(w, t, pc, e)
            else if InCreate(pc) then CreateStep(w, t, pc, e)
            else if InTableSection(pc) then TableStep(w, t, pc, e)
            else ProvisionStep(w, t, pc, e)
  {
  }

  lemma CreateOnInsts(w: World, t: Tid, e: Env, q: Ref)
    requires t in w.threads && InCreate(w.threads[t])
    ensures var w' := CreateStep(w, t, w.threads[t], e);
            && (q in w.insts ==> q in w'.insts && w'.insts[q] == w.insts[q])
            && (q in w'.insts && q !in w.insts ==> w'.insts[q].vm == Vm(Created, false))
  {
  }

  lemma TableOnInsts(w: World, t: Tid, e: Env)
    requires t in w.threads && InTableSection(w.threads[t])
    ensures TableStep(w, t, w.threads[t], e).insts == w.insts
  {
  }

  lemma CallKeepsInsts(w: World, t: Tid, call: Call)
    ensures BeginStep(w, t, call).insts == w.insts
  {
  }

  lemma RunKeepsSettled(w: World, t: Tid, e: Env, r: Ref)
    requires Near(w, t) && Settled(w, r)
    ensures VmSettles(w, RunStep(w, t, e), r)
  {
    RunStepIs(w, t, e);
    if InConfigure(w.threads[t]) {
      ConfigureKeepsSettled(w, t, e, r);
    } else if InStart(w.threads[t]) {
      StartKeepsSettled(w, t, e, r);
    } else if InStop(w.threads[t]) {
      StopKeepsSettled(w, t, e, r);
    } else if InCreate(w.threads[t]) {
      CreateKeepsInstance(w, t, e, r);
    } else if InTableSection(w.threads[t]) {
      TableKeepsInstance(w, t, e, r);
    }
  }

  lemma CallKeepsInstance(w: World, t: Tid, call: Call, r: Ref)
    requires r in w.insts
    ensures VmSettles(w, BeginStep(w, t, call), r)
  {
  }

  lemma VmStaysSettled(w: World, ev: Event, r: Ref)
    requires Inv(w) && Settled(w, r)
    ensures VmSettles(w, Step(w, ev), r)
  {
    match ev
    case Begin(t, call) => CallKeepsInstance(w, t, call, r);
    case Run(t, e) =>
      if t in w.threads {
        ThreadIsNear(w, t);
        RunKeepsSettled(w, t, e, r);
      }
  }

  /** No step of any thread unsettles an instance. */
  lemma SettledStays(w: World, ev: Event, r: Ref)
    requires Inv(w) && Settled(w, r)
    ensures Settled(Step(w, ev), r)
  {
    VmStaysSettled(w, ev, r);
    InstanceIsNear(w, r);
    var m := StepIsMove(w, ev);
    MoveOnInstance(w, ev.t, m, r);
    MoveOnLease(w, ev.t, m, w.insts[r].net);
  }

  // ---- one removal ----

  /** A remover about to take the instance lock, given its next two steps, takes an instance that is not settled out of
      the table exactly when it finds one in an early state. */
  lemma RemovalStrandsWhen(w: World, t: Tid, e: Env, e': Env)
    requires Reachable(w) && AboutToRemove(w, t) && w.lock.None?
    requires w.threads[t].r in w.insts && InTable(w, w.threads[t].r)
    ensures var r, w' := w.threads[t].r, RunStep(RunStep(w, t, e), t, e');
            && r in w'.insts
            && (StopsEarly(w.insts[r].vm.state) <==> !InTable(w', r))
            && (!InTable(w', r) && !Settled(w', r) <==> StopsEarly(w.insts[r].vm.state) && !Settled(w, r))
  {
    ReachableInv(w);
    RemoverHasInstance(w, t);
    RemoverGoesOn(w, t, w.threads[t].r, w.threads[t].k, e, e');
  }

  lemma RemoverGoesOn(w: World, t: Tid, r: Ref, k: Caller, e: Env, e': Env)
    requires t in w.threads && w.threads[t] == SpEnter(r, k) && !k.Direct? && w.lock.None?
    requires r in w.insts && w.insts[r].net in w.leases && w.insts[r].id == k.id && InTable(w, r)
    ensures var w' := RunStep(RunStep(w, t, e), t, e');
            && r in w'.insts
            && (StopsEarly(w.insts[r].vm.state) <==> !InTable(w', r))
            && (StopsEarly(w.insts[r].vm.state) ==> (Settled(w', r) <==> Settled(w, r)))
  {
    EarlyReturnHere(w, t, r, k, e);
    if StopsEarly(w.insts[r].vm.state) {
      DeletionTakesOut(Put(w, t, Some(Remove(r, k, true))), t, r, k, e');
    } else {
      KillKeepsTable(RunStep(w, t, e), t, r, e');
    }
  }

  lemma DeletionTakesOut(w: World, t: Tid, r: Ref, k: Caller, e: Env)
    requires t in w.threads && w.threads[t] == Remove(r, k, true) && !k.Direct? && w.lock.None?
    requires r in w.insts && w.insts[r].id == k.id && InTable(w, r)
    ensures var w' := RunStep(w, t, e); w'.insts == w.insts && w'.leases == w.leases && !InTable(w', r)
  {
    assert RunStep(w, t, e) == TableStep(w, t, Remove(r, k, true), e);
  }

  lemma KillKeepsTable(w: World, t: Tid, r: Ref, e: Env)
    requires t in w.threads && w.threads[t].SpKill? && r in w.insts && InTable(w, r)
    ensures var w' := RunStep(w, t, e); r in w'.insts && InTable(w', r)
  {
    assert RunStep(w, t, e) == StopStep(w, t, w.threads[t], e);
  }

  // ---- whole runs ----

  /** The step is not a remover's Stop taking the early return on an instance that is not settled. */
  predicate CarefulStep(w: World, ev: Event) {
    ev.Run? && AboutToRemove(w, ev.t) ==>
      w.threads[ev.t].r in w.insts
      && (!StopsEarly(w.insts[w.threads[ev.t].r].vm.state) || Settled(w, w.threads[ev.t].r))
  }

  ghost predicate Careful(w: World, evs: seq<Event>) {
    forall k :: 0 <= k < |evs| ==> CarefulStep(Exec(w, evs[..k]), evs[k])
  }

  /** What was deleted is settled. */
  ghost predicate OutsideSettled(w: World) {
    forall r: Ref :: r in w.gone ==> Settled(w, r)
  }

  /** What was deleted is settled, and so is what is about to be deleted after an early return. */
  ghost predicate NothingStray(w: World) {
    && OutsideSettled(w)
    && (forall t: Tid :: t in w.threads && w.threads[t].Remove? && w.threads[t].early ==> Settled(w, w.threads[t].r))
  }

  /** Thread t is not about to delete after an early return, unless it was already. */
  predicate NoNewRemover(w: World, w': World, t: Tid) {
    t in w'.threads && w'.threads[t].Remove? && w'.threads[t].early ==> t in w.threads && w.threads[t] == w'.threads[t]
  }

  lemma ConfigureIsNoRemover(w: World, t: Tid, e: Env)
    requires t in w.threads && InConfigure(w.threads[t])
    ensures NoNewRemover(w, ConfigureStep(w, t, w.threads[t], e), t)
  {
  }

  lemma CreateIsNoRemover(w: World, t: Tid, e: Env)
    requires t in w.threads && InCreate(w.threads[t])
    ensures NoNewRemover(w, CreateStep(w, t, w.threads[t], e), t)
  {
  }

  lemma TableIsNoRemover(w: World, t: Tid, e: Env)
    requires t in w.threads && InTableSection(w.threads[t])
    ensures NoNewRemover(w, TableStep(w, t, w.threads[t], e), t)
  {
  }

  lemma StartIsNoRemover(w: World, t: Tid, e: Env)
    requires t in w.threads && InStart(w.threads[t])
    ensures NoNewRemover(w, StartStep(w, t, w.threads[t], e), t)
  {
  }

  lemma StopIsNoRemover(w: World, t: Tid, e: Env)
    requires t in w.threads && InStop(w.threads[t]) && !w.threads[t].SpEnter?
    ensures NoNewRemover(w, StopStep(w, t, w.threads[t], e), t)
  {
  }

  lemma DirectStopIsNoRemover(w: World, t: Tid, e: Env)
    requires t in w.threads && w.threads[t].SpEnter? && w.threads[t].k.Direct?
    ensures NoNewRemover(w, StopStep(w, t, w.threads[t], e), t)
  {
  }

  lemma RunIsNoRemover(w: World, t: Tid, e: Env)
    requires t in w.threads && !AboutToRemove(w, t)
    ensures NoNewRemover(w, RunStep(w, t, e), t)
  {
    RunStepIs(w, t, e);
    var pc := w.threads[t];
    if InConfigure(pc) {
      ConfigureIsNoRemover(w, t, e);
    } else if InStart(pc) {
      StartIsNoRemover(w, t, e);
    } else if pc.SpEnter? {
      DirectStopIsNoRemover(w, t, e);
    } else if InStop(pc) {
      StopIsNoRemover(w, t, e);
    } else if InCreate(pc) {
      CreateIsNoRemover(w, t, e);
    } else if InTableSection(pc) {
      TableIsNoRemover(w, t, e);
    }
  }

  lemma CallIsNoRemover(w: World, t: Tid, call: Call)
    ensures NoNewRemover(w, BeginStep(w, t, call), t)
  {
  }

  lemma RemoverLandsEarly(w: World, t: Tid, r: Ref, k: Caller, e: Env)
    requires t in w.threads && w.threads[t] == SpEnter(r, k) && !k.Direct? && r in w.insts && w.insts[r].net in w.leases
    ensures var w' := RunStep(w, t, e);
            t in w'.threads && w'.threads[t].Remove? ==> w'.threads[t].r == r && StopsEarly(w.insts[r].vm.state)
  {
    EarlyReturnHere(w, t, r, k, e);
  }

  /** A thread comes to an early deletion only by a remover's early return. */
  lemma RemoverCameEarly(w: World, ev: Event)
    requires Inv(w) && CarefulStep(w, ev)
    ensures var w' := Step(w, ev);
            ev.t in w'.threads && w'.threads[ev.t].Remove? && w'.threads[ev.t].early ==>
              (ev.t in w.threads && w.threads[ev.t] == w'.threads[ev.t]) || Settled(w, w'.threads[ev.t].r)
  {
    match ev
    case Begin(t, call) => CallIsNoRemover(w, t, call);
    case Run(t, e) =>
      if AboutToRemove(w, t) {
        RemoverHasInstance(w, t);
        RemoverLandsEarly(w, t, w.threads[t].r, w.threads[t].k, e);
      } else if t in w.threads {
        RunIsNoRemover(w, t, e);
      }
  }

  lemma MoveOnOthers(w: World, t: Tid, m: Move, u: Tid)
    requires Enabled(w, m) && u != t
    ensures var w' := Moved(w, t, m); u in w'.threads <==> u in w.threads
    ensures u in w.threads ==> Moved(w, t, m).threads[u] == w.threads[u]
  {
  }

  lemma MoveOnGone(w: World, t: Tid, m: Move, r: Ref)
    requires Enabled(w, m) && r in Moved(w, t, m).gone
    ensures r in w.gone || (m.Removes? && m.r == r)
  {
  }

  lemma DeletedIsSettled(w: World, t: Tid)
    requires Inv(w) && NothingStray(w) && t in w.threads && w.threads[t].Remove?
    ensures Settled(w, w.threads[t].r)
  {
    if !w.threads[t].early {
      ThreadIsNear(w, t);
      LateRemovalNear(w, t);
    }
  }

  lemma CarefulStepOutside(w: World, ev: Event)
    requires Inv(w) && NothingStray(w)
    ensures OutsideSettled(Step(w, ev))
  {
    var w' := Step(w, ev);
    var m := StepIsMove(w, ev);
    forall r: Ref | r in w'.gone ensures Settled(w', r) {
      MoveOnGone(w, ev.t, m, r);
      if r !in w.gone { DeletedIsSettled(w, ev.t); }
      SettledStays(w, ev, r);
    }
  }

  lemma CarefulStepKeeps(w: World, ev: Event)
    requires Inv(w) && NothingStray(w) && CarefulStep(w, ev)
    ensures NothingStray(Step(w, ev))
  {
    var w' := Step(w, ev);
    var m := StepIsMove(w, ev);
    CarefulStepOutside(w, ev);
    forall t: Tid | t in w'.threads && w'.threads[t].Remove? && w'.threads[t].early
      ensures Settled(w', w'.threads[t].r)
    {
      if t == ev.t { RemoverCameEarly(w, ev); } else { MoveOnOthers(w, ev.t, m, t); }
      SettledStays(w, ev, w'.threads[t].r);
    }
  }

  lemma CarefulUpTo(w0: World, evs: seq<Event>)
    requires Careful(w0, evs) && evs != []
    ensures Careful(w0, evs[..|evs| - 1]) && CarefulStep(Exec(w0, evs[..|evs| - 1]), evs[|evs| - 1])
  {
    var init := evs[..|evs| - 1];
    assert forall k :: 0 <= k < |init| ==> evs[..k] == init[..k] && evs[k] == init[k];
  }

  lemma CarefulNext(w0: World, evs: seq<Event>)
    requires Init(w0) && evs != [] && NothingStray(Exec(w0, evs[..|evs| - 1]))
    requires CarefulStep(Exec(w0, evs[..|evs| - 1]), evs[|evs| - 1])
    ensures NothingStray(Exec(w0, evs))
  {
    AlwaysInv(w0, evs[..|evs| - 1]);
    CarefulStepKeeps(Exec(w0, evs[..|evs| - 1]), evs[|evs| - 1]);
  }

  lemma {:induction false} CarefulRunKeeps(w0: World, evs: seq<Event>)
    requires Init(w0) && Careful(w0, evs)
    ensures NothingStray(Exec(w0, evs))
    decreases |evs|
  {
    if evs != [] {
      CarefulUpTo(w0, evs);
      CarefulRunKeeps(w0, evs[..|evs| - 1]);
      CarefulNext(w0, evs);
    }
  }

  /** The step does not delete an instance that is not settled. */
  predicate DeletesSettled(w: World, ev: Event) {
    ev.Run? && ev.t in w.threads && w.threads[ev.t].Remove? && Deletes(w, w.threads[ev.t]) ==>
      Settled(w, w.threads[ev.t].r)
  }

  lemma DeletionShows(w: World, t: Tid, e: Env)
    requires t in w.threads && w.threads[t].Remove? && Deletes(w, w.threads[t])
    ensures var r, w' := w.threads[t].r, RunStep(w, t, e); r in w'.gone && (Settled(w', r) <==> Settled(w, r))
  {
    var Remove(r, k, early) := w.threads[t];
    assert RunStep(w, t, e) == TableStep(w, t, Remove(r, k, early), e);
  }

  lemma StepStrandsWhen(w: World, ev: Event)
    requires Inv(w) && OutsideSettled(w)
    ensures OutsideSettled(Step(w, ev)) <==> DeletesSettled(w, ev)
  {
    if DeletesSettled(w, ev) {
      var m := StepIsMove(w, ev);
      forall r: Ref | r in Step(w, ev).gone ensures Settled(Step(w, ev), r) {
        MoveOnGone(w, ev.t, m, r);
        if m.Removes? && r !in w.gone { DeletionIsRun(w, ev, m); }
        SettledStays(w, ev, r);
      }
    } else {
      DeletionShows(w, ev.t, ev.env);
    }
  }

  lemma DeletionIsRun(w: World, ev: Event, m: Move)
    requires Fits(w, ev.t, m) && m.Removes? && Step(w, ev) == Moved(w, ev.t, m) && m.r !in w.gone
    ensures ev.Run? && Deletes(w, w.threads[ev.t]) && w.threads[ev.t].r == m.r
  {
  }

  /** Outside the table nothing is left of any instance at any moment of the run up to its n-th step. */
  ghost predicate NeverStrands(w0: World, evs: seq<Event>, n: nat)
    requires n <= |evs|
  {
    forall k :: 0 <= k <= n ==> OutsideSettled(Exec(w0, evs[..k]))
  }

  /** Each of the first n steps that deletes an instance finds it settled. */
  ghost predicate AlwaysDeletesSettled(w0: World, evs: seq<Event>, n: nat)
    requires n <= |evs|
  {
    forall k :: 0 <= k < n ==> DeletesSettled(Exec(w0, evs[..k]), evs[k])
  }

  lemma NextStrandsWhen(w0: World, evs: seq<Event>, n: nat)
    requires Init(w0) && n < |evs| && NeverStrands(w0, evs, n)
    ensures OutsideSettled(Exec(w0, evs[..n + 1])) <==> DeletesSettled(Exec(w0, evs[..n]), evs[n])
  {
    assert evs[..n + 1][..n] == evs[..n];
    AlwaysInv(w0, evs[..n]);
    StepStrandsWhen(Exec(w0, evs[..n]), evs[n]);
  }

  lemma NeverStrandsNext(w0: World, evs: seq<Event>, n: nat)
    requires n < |evs|
    ensures NeverStrands(w0, evs, n + 1) <==> NeverStrands(w0, evs, n) && OutsideSettled(Exec(w0, evs[..n + 1]))
  {
  }

  lemma AlwaysDeletesNext(w0: World, evs: seq<Event>, n: nat)
    requires n < |evs|
    ensures AlwaysDeletesSettled(w0, evs, n + 1) <==>
            AlwaysDeletesSettled(w0, evs, n) && DeletesSettled(Exec(w0, evs[..n]), evs[n])
  {
  }

  lemma NothingStrandedAtFirst(w0: World, evs: seq<Event>)
    requires Init(w0)
    ensures NeverStrands(w0, evs, 0)
  {
    assert Exec(w0, evs[..0]) == w0;
  }

  lemma {:induction false} StrandedUpTo(w0: World, evs: seq<Event>, n: nat)
    requires Init(w0) && n <= |evs|
    ensures NeverStrands(w0, evs, n) <==> AlwaysDeletesSettled(w0, evs, n)
    decreases n
  {
    if n == 0 {
      NothingStrandedAtFirst(w0, evs);
    } else {
      StrandedUpTo(w0, evs, n - 1);
      NeverStrandsNext(w0, evs, n - 1);
      AlwaysDeletesNext(w0, evs, n - 1);
      if NeverStrands(w0, evs, n - 1) { NextStrandsWhen(w0, evs, n - 1); }
    }
  }

  /** Over whole runs: outside the table nothing is ever left of an instance, exactly when every deletion found its
      instance settled. */
  lemma NothingStrandedWhen(w0: World, evs: seq<Event>)
    requires Init(w0)
    ensures NeverStrands(w0, evs, |evs|) <==> AlwaysDeletesSettled(w0, evs, |evs|)
  {
    StrandedUpTo(w0, evs, |evs|);
  }

  /** When no remover's Stop takes the early return on an instance that is not settled, then whatever overlaps: outside
      the table nothing is left of any instance, every cleanup failure stays visible in the table, and every unreturned
      lease belongs to a CreateVM under way or to a resident VM. */
  lemma CarefulRemovalsLeaveNothing(w0: World, evs: seq<Event>)
    requires Init(w0) && Careful(w0, evs)
    ensures var w := Exec(w0, evs);
            && (forall r: Ref :: r in w.insts && !InTable(w, r) ==> Settled(w, r))
            && (forall r: Ref :: r in w.insts && w.insts[r].vm.state == CleanupFailed ==> InTable(w, r))
            && (forall a: Ref :: Live(w, a) ==> exists o :: Owns(w, o, a) && !o.Abandoned?)
  {
    var w := Exec(w0, evs);
    AlwaysInv(w0, evs);
    CarefulRunKeeps(w0, evs);
    forall r: Ref | r in w.insts && !InTable(w, r) ensures Settled(w, r) {
      OutsideIsGone(w, r);
    }
    forall a: Ref | Live(w, a) ensures exists o :: Owns(w, o, a) && !o.Abandoned? {
      var o := LiveHasOwner(w, a);
      assert Owns(w, o, a) && !o.Abandoned?;
    }
  }

  lemma OutsideIsGone(w: World, r: Ref)
    requires TableInv(w) && r in w.insts
    ensures r in w.gone <==> !InTable(w, r)
    ensures r in w.gone && !w.gone[r] ==> w.insts[r].vm.state == Stopped
  {
  }

  /** A cleanup failure is in the table, unless an earlier removal took its VM out by an early return. */
  lemma CleanupFailuresAreVisible(w: World, r: Ref)
    requires Reachable(w) && r in w.insts && w.insts[r].vm.state == CleanupFailed
    ensures InTable(w, r) || (r in w.gone && w.gone[r])
  {
    ReachableInv(w);
    OutsideIsGone(w, r);
  }

  lemma GoneStays(w: World, ev: Event, r: Ref)
    requires Reachable(w) && r in w.gone
    ensures r in Step(w, ev).gone
  {
    ReachableInv(w);
    var m := StepIsMove(w, ev);
  }

  lemma GoneIsOutside(w: World, r: Ref)
    requires Reachable(w) && r in w.gone
    ensures r in w.insts && !InTable(w, r)
  {
    ReachableInv(w);
    assert r in w.insts;
    OutsideIsGone(w, r);
  }

  /** An instance once deleted never comes back to the table, where DestroyVM and Reconcile look for it. */
  lemma {:induction false} DeletedForGood(w: World, evs: seq<Event>, r: Ref)
    requires Reachable(w) && r in w.gone
    ensures var w' := Exec(w, evs); Reachable(w') && r in w'.gone && r in w'.insts && !InTable(w', r)
    decreases |evs|
  {
    if evs == [] {
      GoneIsOutside(w, r);
    } else {
      var before := Exec(w, evs[..|evs| - 1]);
      DeletedForGood(w, evs[..|evs| - 1], r);
      GoneStays(before, evs[|evs| - 1], r);
      ReachableStep(before, evs[|evs| - 1]);
      GoneIsOutside(Exec(w, evs), r);
    }
  }
}
