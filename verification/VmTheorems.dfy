/** What holds in every reachable state of the VM protocol, and across every step and run. */
module VmTheorems {
  import opened Common
  import opened Ipam
  import opened Leases
  import opened Lifecycle
  import opened Manager
  import opened VmProtocol
  import opened VmInvariant
  import opened VmSteps
  import opened VmRuns

  lemma ReachableInv(w: World)
    requires Reachable(w)
    ensures Inv(w)
  {
    var w0, evs :| Init(w0) && w == Exec(w0, evs);
    AlwaysInv(w0, evs);
  }

  lemma ReachableStep(w: World, ev: Event)
    requires Reachable(w)
    ensures Reachable(Step(w, ev))
  {
    var w0, evs :| Init(w0) && w == Exec(w0, evs);
    assert (evs + [ev])[..|evs|] == evs;
    assert Step(w, ev) == Exec(w0, evs + [ev]);
  }

  // ---- what a move can touch ----

  lemma MoveOnInstance(w: World, t: Tid, m: Move, r: Ref)
    requires Fits(w, t, m) && r in w.insts
    ensures var w' := Moved(w, t, m);
            && r in w'.insts
            && (w'.insts[r] == w.insts[r] || (m.SetsVm? && m.r == r && w'.insts[r] == w.insts[r].(vm := m.v)))
  {
  }

  /** Same numbers, and a returned lease stays exactly as it is. */
  predicate Continues(l: Lease, l': Lease) {
    l'.subnet == l.subnet && l'.cid == l.cid && (l.released ==> l' == l)
  }

  /** Thread t is a CreateVM that holds a, or is in the middle of a call on the instance that owns a. */
  predicate InHand(w: World, t: Tid, a: Ref) {
    || Held(w, t) == Some(a)
    || (Mid(w, t).Some? && Mid(w, t).value.0 in w.insts && w.insts[Mid(w, t).value.0].net == a)
  }

  lemma LeaseStepContinues(w: World, a: Ref, l: Lease, p: Pool)
    requires LeaseStep(w, a, l, p) && (w.leases[a].released ==> w.leases[a].cleanup == [])
    ensures Continues(w.leases[a], l)
  {
  }

  lemma MoveOnLease(w: World, t: Tid, m: Move, a: Ref)
    requires Fits(w, t, m) && a in w.leases && (w.leases[a].released ==> w.leases[a].cleanup == [])
    ensures a in Moved(w, t, m).leases && Continues(w.leases[a], Moved(w, t, m).leases[a])
    ensures !w.leases[a].released && Moved(w, t, m).leases[a].released ==> InHand(w, t, a)
  {
    if m.SetsLease? && w.insts[m.r].net == a {
      LeaseStepContinues(w, a, m.l, m.p);
    } else if m.GivesBack? && m.a == a {
      LeaseStepContinues(w, a, m.l, m.p);
    }
  }

  lemma MoveOnEntry(w: World, t: Tid, m: Move, id: string)
    requires Fits(w, t, m) && id in w.table
    ensures var w' := Moved(w, t, m);
            if id in w'.table then w'.table[id] == w.table[id] else m.Removes? && m.id == id
  {
  }

  // ---- the state field is a mutex ----

  /** A transitional state has exactly one thread in the section it names; other states have none. */
  lemma StateFieldIsMutex(w: World, r: Ref)
    requires Reachable(w) && r in w.insts
    ensures forall t: Tid, u: Tid ::
              Mid(w, t).Some? && Mid(w, u).Some? && Mid(w, t).value.0 == r == Mid(w, u).value.0 ==> t == u
    ensures Transitional(w.insts[r].vm.state) <==> exists t: Tid :: Mid(w, t) == Some((r, w.insts[r].vm.state))
    ensures forall t: Tid :: Mid(w, t).Some? && Mid(w, t).value.0 == r ==> Mid(w, t).value.1 == w.insts[r].vm.state
  {
    ReachableInv(w);
    if t: Tid :| Mid(w, t) == Some((r, w.insts[r].vm.state)) {
      MidIsTransitional(w, t);
    }
  }

  /** A thread at the end of Start always finds the state it set: the "unexpected state" error cannot happen. */
  lemma StartAlwaysFindsStarting(w: World, t: Tid)
    requires Reachable(w) && t in w.threads && w.threads[t].StDone?
    ensures w.threads[t].r in w.insts && FinishStart(w.insts[w.threads[t].r].vm).Some?
  {
    ReachableInv(w);
    ThreadIsNear(w, t);
  }

  lemma MidHasInstance(w: World, t: Tid)
    requires Inv(w) && Mid(w, t).Some?
    ensures Mid(w, t).value.0 in w.insts
  {
  }

  lemma MidIsExclusive(w: World, u: Tid, t: Tid, r: Ref)
    requires Inv(w) && Exclusive(w, u, r) && Mid(w, t).Some? && Mid(w, t).value.0 == r
    ensures u == t
  {
    ExclusiveMeans(w, u, r);
  }

  lemma HolderKeeps(w: World, ev: Event, t: Tid, r: Ref)
    requires Inv(w) && Mid(w, t).Some? && Mid(w, t).value.0 == r && ev.t != t
    ensures r in w.insts && r in Step(w, ev).insts && Step(w, ev).insts[r] == w.insts[r]
  {
    MidHasInstance(w, t);
    var m := StepIsMove(w, ev);
    MoveOnInstance(w, ev.t, m, r);
    if m.SetsVm? && m.r == r {
      MidIsExclusive(w, ev.t, t, r);
    }
  }

  /** While a thread is in a section, no other thread changes the instance. */
  lemma OnlyTheHolderLeaves(w: World, ev: Event, t: Tid, r: Ref)
    requires Reachable(w) && Mid(w, t).Some? && Mid(w, t).value.0 == r && ev.t != t
    ensures r in w.insts && r in Step(w, ev).insts && Step(w, ev).insts[r] == w.insts[r]
  {
    ReachableInv(w);
    HolderKeeps(w, ev, t, r);
  }

  // ---- owners ----

  /** Who can own an unreturned allocation: a CreateVM call between Acquire and insertion, a resident VM, or a VM
      deleted after its remover's Stop took the early return. */
  datatype Owner = Creating(t: Tid) | Resident(id: string) | Abandoned(r: Ref)

  ghost predicate Owns(w: World, o: Owner, a: Ref) {
    match o
    case Creating(t) => Held(w, t) == Some(a)
    case Resident(id) => id in w.table && w.table[id] in w.insts && w.insts[w.table[id]].net == a
    case Abandoned(r) => r in w.gone && w.gone[r] && r in w.insts && w.insts[r].net == a
  }

  lemma InstanceOwner(w: World, r: Ref) returns (o: Owner)
    requires TableInv(w) && ShapeInv(w) && r in w.insts && Live(w, w.insts[r].net)
    ensures Owns(w, o, w.insts[r].net)
    ensures (o == Resident(w.insts[r].id) && InTable(w, r)) || o == Abandoned(r)
  {
    if InTable(w, r) {
      o := Resident(w.insts[r].id);
    } else {
      o := Abandoned(r);
    }
  }

  lemma LiveHasOwner(w: World, a: Ref) returns (o: Owner)
    requires Inv(w) && Live(w, a)
    ensures Owns(w, o, a)
  {
    if OwnedByThread(w, a) {
      var t: Tid :| Held(w, t) == Some(a);
      o := Creating(t);
    } else {
      var r: Ref :| r in w.insts && w.insts[r].net == a;
      o := InstanceOwner(w, r);
    }
  }

  lemma OwnersAgree(w: World, a: Ref, o: Owner, o': Owner)
    requires OwnerInv(w) && TableInv(w) && Owns(w, o, a) && Owns(w, o', a)
    ensures o == o'
  {
    if o.Resident? { assert InTable(w, w.table[o.id]); }
    if o'.Resident? { assert InTable(w, w.table[o'.id]); }
  }

  /** Every unreturned allocation has exactly one owner, of one of the three kinds. */
  lemma EveryLeaseHasOneOwner(w: World, a: Ref)
    requires Reachable(w) && Live(w, a)
    ensures exists o :: Owns(w, o, a) && forall o' :: Owns(w, o', a) ==> o' == o
  {
    ReachableInv(w);
    var o := LiveHasOwner(w, a);
    forall o' | Owns(w, o', a) ensures o' == o {
      OwnersAgree(w, a, o, o');
    }
  }

  /** A subnet or CID is in use exactly when an unreturned allocation holds it, and then just one does. */
  lemma NumbersInUse(w: World, n: nat)
    requires Reachable(w)
    ensures n in w.pool.usedSubnets <==> exists a: Ref :: Live(w, a) && w.leases[a].subnet == n
    ensures n in w.pool.usedCIDs <==> exists a: Ref :: Live(w, a) && w.leases[a].cid == n
    ensures forall a: Ref, b: Ref :: Live(w, a) && Live(w, b) && w.leases[a].subnet == w.leases[b].subnet ==> a == b
    ensures forall a: Ref, b: Ref :: Live(w, a) && Live(w, b) && w.leases[a].cid == w.leases[b].cid ==> a == b
  {
    ReachableInv(w);
    if n in w.pool.usedSubnets {
      var a: Ref :| LiveIn(w.leases, a) && w.leases[a].subnet == n;
      assert Live(w, a);
    }
    if n in w.pool.usedCIDs {
      var a: Ref :| LiveIn(w.leases, a) && w.leases[a].cid == n;
      assert Live(w, a);
    }
  }

  /** The pool's stacks and in-use sets always partition their ranges, and a CID is always left when a subnet is. */
  lemma PoolStaysWhole(w: World)
    requires Reachable(w)
    ensures Partition(w.pool.freeSubnets, w.pool.usedSubnets, 0, 256)
    ensures Partition(w.pool.freeCIDs, w.pool.usedCIDs, 3, 1025)
    ensures Allocated(w.pool).1 != CidsExhausted
  {
    ReachableInv(w);
    AllocateIsFresh(w.pool);
  }

  lemma LeaseIsBooked(w: World, a: Ref)
    requires Inv(w) && a in w.leases
    ensures LeaseOk(w.pool.usedSubnets, w.pool.usedCIDs, w.leases[a])
  {
  }

  /** Leases are never forgotten, renumbered or revived, and a step returns only the lease its thread has in hand. */
  lemma LeasesOnlyEnd(w: World, ev: Event, a: Ref)
    requires Reachable(w) && a in w.leases
    ensures var w' := Step(w, ev);
            && a in w'.leases && Continues(w.leases[a], w'.leases[a])
            && (Live(w', a) ==> w.leases[a].subnet in w'.pool.usedSubnets && w.leases[a].cid in w'.pool.usedCIDs)
            && (Live(w, a) && !Live(w', a) ==> InHand(w, ev.t, a))
  {
    ReachableInv(w);
    LeaseIsBooked(w, a);
    var m := StepIsMove(w, ev);
    MoveOnLease(w, ev.t, m, a);
    MoveKeeps(w, ev.t, m);
    LeaseIsBooked(Step(w, ev), a);
  }

  // ---- what a state promises ----

  /** Configured, Starting and Running come with a machine, an unreturned lease and both cleanup steps recorded;
      Stopped comes with no machine and a returned lease. */
  lemma StateMeansResources(w: World, r: Ref)
    requires Reachable(w) && r in w.insts
    ensures w.insts[r].net in w.leases
    ensures var s, l := w.insts[r].vm.state, w.leases[w.insts[r].net];
            && (s == Configured || s == Starting || s == Running ==>
                  w.insts[r].vm.machine && !l.released && l.cleanup == [RemoveTap, RemoveFirewall])
            && (s == Stopped ==> !w.insts[r].vm.machine && l.released && l.cleanup == [])
            && (s == Created || s == Configuring ==> !w.insts[r].vm.machine)
  {
    ReachableInv(w);
    InstanceIsNear(w, r);
  }

  lemma StoppedStays(w: World, ev: Event, r: Ref)
    requires Reachable(w) && r in w.insts && w.insts[r].vm.state == Stopped
    ensures r in Step(w, ev).insts && Step(w, ev).insts[r] == w.insts[r]
  {
    ReachableInv(w);
    var m := StepIsMove(w, ev);
    MoveOnInstance(w, ev.t, m, r);
  }

  /** Stopped is never left, whatever runs afterwards. */
  lemma {:induction false} StoppedIsFinal(w: World, evs: seq<Event>, r: Ref)
    requires Reachable(w) && r in w.insts && w.insts[r].vm.state == Stopped
    ensures Reachable(Exec(w, evs)) && r in Exec(w, evs).insts && Exec(w, evs).insts[r] == w.insts[r]
    decreases |evs|
  {
    if evs != [] {
      var before := Exec(w, evs[..|evs| - 1]);
      StoppedIsFinal(w, evs[..|evs| - 1], r);
      StoppedStays(before, evs[|evs| - 1], r);
      ReachableStep(before, evs[|evs| - 1]);
    }
  }

  // ---- the table ----

  /** The table never outgrows its limit, each name is legal and maps to an instance of that name, and at most
      maxProvision ProvisionVM calls are under way. */
  lemma TableWithinLimits(w: World)
    requires Reachable(w)
    ensures |w.table| <= w.maxVMs
    ensures forall id :: id in w.table ==> ValidVmId(id) && w.table[id] in w.insts && w.insts[w.table[id]].id == id
    ensures |Holders(w)| <= w.maxProvision && w.tokens == |Holders(w)|
  {
    ReachableInv(w);
  }

  /** An entry changes only by deletion, and only by the thread whose Stop of that very instance has just returned
      nil. */
  lemma OnlyTheStopperDeletes(w: World, ev: Event, id: string)
    requires Reachable(w) && id in w.table
    ensures var w' := Step(w, ev);
            if id in w'.table then w'.table[id] == w.table[id]
            else ev.t in w.threads && JustStopped(w, w.threads[ev.t], id)
  {
    ReachableInv(w);
    var m := StepIsMove(w, ev);
    MoveOnEntry(w, ev.t, m, id);
  }

  /** The position after a Stop, called to remove `id`, that returned nil: with the instance Stopped, or early. */
  predicate JustStopped(w: World, pc: Pc, id: string) {
    && pc.Remove? && !pc.k.Direct? && pc.k.id == id && id in w.table && pc.r == w.table[id] && pc.r in w.insts
    && (!pc.early ==> w.insts[pc.r].vm.state == Stopped)
  }

  /** The step that ends a CreateVM which lost the recheck returns its lease and both numbers. */
  lemma LosingCreateReturnsLease(w: World, t: Tid, e: Env)
    requires Reachable(w) && t in w.threads && w.threads[t].CrUndo?
    ensures var w', a := RunStep(w, t, e), w.threads[t].net;
            && Live(w, a) && a in w'.leases && w'.leases[a].released
            && w.leases[a].subnet in w.pool.usedSubnets && w.leases[a].subnet !in w'.pool.usedSubnets
            && w.leases[a].cid in w.pool.usedCIDs && w.leases[a].cid !in w'.pool.usedCIDs
  {
    ReachableInv(w);
    ThreadIsNear(w, t);
    var a := w.threads[t].net;
    LeaseIsBooked(w, a);
    ReturnIsExact(w.pool, w.leases[a].subnet, w.leases[a].cid);
  }
}
