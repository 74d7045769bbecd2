/** One microVM instance (internal/core/vmm/instance.go and lifecycle.go).

    Configure, Start and Stop drop the instance lock while they talk to the host. Each stretch of code under the lock
    is one function here; the sequential methods below and the concurrent protocol in module VmProtocol share them. */
module Lifecycle {
  import opened Common
  import opened Ipam
  import opened Leases

  datatype State = Created | Configuring | Configured | Starting | Running | Stopping | Stopped | CleanupFailed

  /** The two fields the instance lock guards; `machine` says that a Firecracker machine is recorded. */
  datatype Vm = Vm(state: State, machine: bool)

  // ---- the lock sections ----

  function EnterConfigure(v: Vm): (r: Option<Vm>) {
    if v.state != Created then None else Some(v.(state := Configuring))
  }

  function CommitConfigure(v: Vm): (r: Vm) {
    Vm(Configured, true)
  }

  function AbortConfigure(v: Vm, clean: bool): (r: Vm) {
    v.(state := if clean then Created else CleanupFailed)
  }

  function EnterStart(v: Vm): (r: Option<Vm>) {
    if v.state != Configured || !v.machine then None else Some(v.(state := Starting))
  }

  function FailStart(v: Vm): (r: Vm) {
    v.(state := Configured)
  }

  /** None is the "start completed in unexpected state" error. */
  function FinishStart(v: Vm): (r: Option<Vm>) {
    if v.state != Starting then None else Some(v.(state := Running))
  }

  /** None is the early return: nothing to tear down, reported as success. */
  function EnterStop(v: Vm): (r: Option<Vm>) {
    if v.state != Running && v.state != Configured && v.state != CleanupFailed then None
    else Some(v.(state := Stopping))
  }

  function ExitStop(v: Vm, stopped: bool, released: bool, socketGone: bool): (r: Vm) {
    Vm(if stopped && released && socketGone then Stopped else CleanupFailed, v.machine && !stopped)
  }

  // ---- whole calls, run without interference ----

  /** Everything a VM can still owe the host. */
  datatype Holdings = Holdings(vm: Vm, lease: Lease, socket: bool)

  /** Host answers during Configure: `checks` covers everything tested before the lock is taken. */
  datatype ConfigureEnv = ConfigureEnv(checks: bool, tap: bool, firewall: bool, machine: bool, fails: set<nat>)

  /** Host answers during Start; either way the socket file may have appeared. */
  datatype StartEnv = StartEnv(ok: bool, socket: bool)

  datatype StopEnv = StopEnv(vmm: bool, fails: set<nat>, socket: bool)

  function ConfigureCall(h: Holdings, e: ConfigureEnv): (r: (Holdings, bool)) {
    if !e.checks then (h, false)
    else match EnterConfigure(h.vm)
      case None => (h, false)
      case Some(v) =>
        var (l, up) := SetUp(h.lease, e.tap, e.firewall);
        if up && e.machine then (Holdings(CommitConfigure(v), l, h.socket), true)
        else
          var l' := AfterRelease(l, e.fails);
          (Holdings(AbortConfigure(v, l'.released), l', h.socket), false)
  }

  function StartCall(h: Holdings, e: StartEnv): (r: (Holdings, bool)) {
    match EnterStart(h.vm)
    case None => (h, false)
    case Some(v) =>
      if !e.ok then (h.(vm := FailStart(v), socket := h.socket || e.socket), false)
      else match FinishStart(v)
        case None => (h.(vm := v, socket := h.socket || e.socket), false)
        case Some(w) => (h.(vm := w, socket := h.socket || e.socket), true)
  }

  function StopCall(h: Holdings, e: StopEnv): (r: (Holdings, bool)) {
    match EnterStop(h.vm)
    case None => (h, true)
    case Some(v) =>
      var stopped := !v.machine || e.vmm;
      var l := AfterRelease(h.lease, e.fails);
      var gone := stopped && e.socket;
      (Holdings(ExitStop(v, stopped, l.released, gone), l, h.socket && !gone), stopped && l.released && gone)
  }

  /** The pool after Configure, which gives the lease back only in its rollback. */
  function PoolAfterConfigure(p: Pool, h: Holdings, e: ConfigureEnv): Pool {
    if e.checks && h.vm.state == Created && !ConfigureCall(h, e).1
    then PoolAfterRelease(p, SetUp(h.lease, e.tap, e.firewall).0, e.fails)
    else p
  }

  function PoolAfterStop(p: Pool, h: Holdings, e: StopEnv): Pool {
    if EnterStop(h.vm).None? then p else PoolAfterRelease(p, h.lease, e.fails)
  }

  // ---- what a call may leave behind ----

  /** The shape of every instance between calls when calls do not overlap. */
  ghost predicate AtRest(h: Holdings) {
    && (h.lease.released ==> h.lease.cleanup == [])
    && NoDup(h.lease.cleanup)
    && match h.vm.state
       case Created => !h.vm.machine && h.lease.cleanup == []
       case Configured => h.vm.machine && !h.lease.released && h.lease.cleanup == [RemoveTap, RemoveFirewall]
       case Running => h.vm.machine && !h.lease.released && h.lease.cleanup == [RemoveTap, RemoveFirewall]
       case Stopped => !h.vm.machine && h.lease.released && !h.socket
       case CleanupFailed => true
       case _ => false
  }

  ghost predicate NothingOwed(h: Holdings) {
    !h.vm.machine && h.lease.released && h.lease.cleanup == [] && !h.socket
  }

  /** Every obligation of b was already one of a. */
  ghost predicate OwesNoMore(a: Holdings, b: Holdings) {
    && (b.vm.machine ==> a.vm.machine)
    && (forall x :: x in b.lease.cleanup ==> x in a.lease.cleanup)
    && |b.lease.cleanup| <= |a.lease.cleanup|
    && (a.lease.released ==> b.lease.released)
    && (b.socket ==> a.socket)
  }

  lemma {:induction false} RetainedNoLonger<T>(steps: seq<T>, fails: set<nat>)
    ensures |Retained(steps, fails)| <= |steps|
    decreases |steps|
  {
    if steps != [] { RetainedNoLonger(steps[..|steps| - 1], fails); }
  }

  /** What Configure does, in every state. Past its checks and with a lease not set up before, it succeeds exactly when
      the three host calls do; otherwise the rollback keeps just the steps that were recorded and failed, and the state
      says whether any is left. With a lease already returned nothing happens. */
  lemma ConfigureEffect(h: Holdings, e: ConfigureEnv)
    ensures var (h', ok) := ConfigureCall(h, e);
            && h'.socket == h.socket
            && (!e.checks || h.vm.state != Created || h.lease.released ==> h' == h && !ok)
            && (e.checks && h.vm.state == Created && !h.lease.released && h.lease.cleanup == [] ==>
                  && (ok <==> e.tap && e.firewall && e.machine)
                  && (ok ==> h'.vm == Vm(Configured, true) && !h'.lease.released
                             && h'.lease.cleanup == [RemoveTap, RemoveFirewall])
                  && (!ok ==>
                        && (RemoveTap in h'.lease.cleanup <==> e.tap && 0 in e.fails)
                        && (RemoveFirewall in h'.lease.cleanup <==> e.tap && e.firewall && 1 in e.fails)
                        && (h'.lease.released <==> h'.lease.cleanup == [])
                        && h'.vm == Vm(if h'.lease.released then Created else CleanupFailed, h.vm.machine)))
  {
    if e.checks && h.vm.state == Created && !h.lease.released && h.lease.cleanup == [] {
      var steps := SetUp(h.lease, e.tap, e.firewall).0.cleanup;
      RetainedMembers(steps, e.fails);
      if e.tap { assert steps[0] == RemoveTap; }
      if e.tap && e.firewall { assert steps[1] == RemoveFirewall; }
    }
  }

  /** What Start does, in every state: nothing unless the VM is configured, and then Running exactly when the host
      starts the machine. */
  lemma StartEffect(h: Holdings, e: StartEnv)
    ensures var (h', ok) := StartCall(h, e);
            if h.vm == Vm(Configured, true)
            then
              && ok == e.ok
              && h' == Holdings(Vm(if ok then Running else Configured, true), h.lease, h.socket || e.socket)
            else !ok && h' == h
  {
  }

  /** What a Stop that does not return early does, in every state and whatever fails: the machine goes off the record
      exactly when it was stopped, each owed step stays exactly when it failed, the lease is given back exactly when
      none did, and the socket goes exactly when its removal was tried and succeeded. The three parts do not wait for
      each other, except that the socket is left while the machine is up. */
  lemma StopEffect(h: Holdings, e: StopEnv)
    requires EnterStop(h.vm).Some?
    ensures var (h', ok) := StopCall(h, e);
            var stopped := h.vm.machine ==> e.vmm;
            && (h'.vm.machine <==> h.vm.machine && !e.vmm)
            && (h'.lease.released <==> h.lease.released || !SomeFails(h.lease.cleanup, e.fails))
            && (h.lease.released ==> h'.lease == h.lease)
            && (!h.lease.released && NoDup(h.lease.cleanup) ==> forall i :: 0 <= i < |h.lease.cleanup| ==>
                  (h.lease.cleanup[i] in h'.lease.cleanup <==> i in e.fails))
            && (forall x :: x in h'.lease.cleanup ==> x in h.lease.cleanup)
            && (h'.socket <==> h.socket && !(stopped && e.socket))
            && (ok <==> stopped && h'.lease.released && e.socket)
            && h'.vm.state == if ok then Stopped else CleanupFailed
  {
    RetainedEmpty(h.lease.cleanup, e.fails);
    RetainedAreSteps(h.lease.cleanup, e.fails);
    if NoDup(h.lease.cleanup) { RetainedMembers(h.lease.cleanup, e.fails); }
  }

  lemma ConfigureKeepsRest(h: Holdings, e: ConfigureEnv)
    requires AtRest(h)
    ensures AtRest(ConfigureCall(h, e).0)
    ensures ConfigureCall(h, e).1 <==> ConfigureCall(h, e).0.vm.state == Configured && h.vm.state == Created
  {
    var (l, up) := SetUp(h.lease, e.tap, e.firewall);
    assert NoDup(l.cleanup);
    RetainedMembers(l.cleanup, e.fails);
  }

  /** A Configure that got past its checks and failed has given the lease back, or is in CleanupFailed. */
  lemma FailedConfigure(h: Holdings, e: ConfigureEnv)
    requires AtRest(h) && e.checks && h.vm.state == Created && !ConfigureCall(h, e).1
    ensures var r := ConfigureCall(h, e).0;
            || (r.vm == Vm(Created, false) && r.lease.released && r.lease.cleanup == [])
            || (r.vm == Vm(CleanupFailed, false) && !r.lease.released && r.lease.cleanup != [])
  {
    var (l, up) := SetUp(h.lease, e.tap, e.firewall);
    RetainedEmpty(l.cleanup, e.fails);
  }

  lemma StartKeepsRest(h: Holdings, e: StartEnv)
    requires AtRest(h)
    ensures AtRest(StartCall(h, e).0) && StartCall(h, e).0.lease == h.lease
    ensures StartCall(h, e).1 <==> h.vm.state == Configured && e.ok
    ensures h.vm.state == Configured ==> StartCall(h, e).0.vm == Vm(if e.ok then Running else Configured, true)
  {
  }

  /** Stop keeps the rest shape, adds no obligation, and reports success only by its early return or with nothing
      owed. */
  lemma StopNeverAdds(h: Holdings, e: StopEnv)
    requires AtRest(h)
    ensures var (r, ok) := StopCall(h, e);
            && AtRest(r)
            && OwesNoMore(h, r)
            && (ok ==> EnterStop(h.vm) == None || (NothingOwed(r) && r.vm.state == Stopped))
            && (!ok ==> r.vm.state == CleanupFailed)
            && (EnterStop(h.vm) == None ==> r == h)
  {
    RetainedMembers(h.lease.cleanup, e.fails);
    RetainedNoLonger(h.lease.cleanup, e.fails);
  }

  /** Stop returns success exactly when it had nothing to do or every host step it still owed went through. */
  lemma StopSucceedsWhen(h: Holdings, e: StopEnv)
    requires AtRest(h)
    ensures StopCall(h, e).1 <==>
            || h.vm.state == Created || h.vm.state == Stopped
            || ((h.vm.machine ==> e.vmm)
                && (!h.lease.released ==> !SomeFails(h.lease.cleanup, e.fails))
                && e.socket)
  {
    RetainedEmpty(h.lease.cleanup, e.fails);
  }

  // ---- the object ----

  class Instance {
    const id: string
    const network: Allocation
    var state: State
    var machine: bool
    /** Whether the Firecracker API socket file exists on the host. */
    var socket: bool

    ghost predicate Valid() {
      network.Valid()
    }

    ghost function View(): Holdings
      reads this, network
    {
      Holdings(Vm(state, machine), network.View(), socket)
    }

    constructor (id: string, network: Allocation)
      requires network.Valid()
      ensures Valid() && this.id == id && this.network == network
      ensures View() == Holdings(Vm(Created, false), network.View(), false)
    {
      this.id, this.network := id, network;
      state, machine, socket := Created, false, false;
    }

    method Configure(e: ConfigureEnv) returns (ok: bool)
      requires Valid()
      modifies this, network, network.pool
      ensures (View(), ok) == ConfigureCall(old(View()), e)
      ensures network.pool.View() == PoolAfterConfigure(old(network.pool.View()), old(View()), e)
    {
      if !e.checks { return false; }
      if state != Created { return false; }
      state := Configuring;
      var up := network.Setup(e.tap, e.firewall);
      if up && e.machine {
        machine := true;
        state := Configured;
        return true;
      }
      var clean := network.Release(e.fails);
      if clean {
        state := Created;
      } else {
        state := CleanupFailed;
      }
      return false;
    }

    method Start(e: StartEnv) returns (ok: bool)
      modifies this
      ensures (View(), ok) == StartCall(old(View()), e)
    {
      if state != Configured { return false; }
      if !machine { return false; }
      state := Starting;
      socket := socket || e.socket;
      if !e.ok {
        state := Configured;
        return false;
      }
      if state != Starting { return false; }
      state := Running;
      return true;
    }

    method Stop(e: StopEnv) returns (ok: bool)
      requires Valid()
      modifies this, network, network.pool
      ensures (View(), ok) == StopCall(old(View()), e)
      ensures network.pool.View() == PoolAfterStop(old(network.pool.View()), old(View()), e)
    {
      if state != Running && state != Configured && state != CleanupFailed { return true; }
      state := Stopping;
      var errs := 0;
      var machineStopped := !machine;
      if machine {
        if !e.vmm { errs := errs + 1; } else { machineStopped := true; }
      }
      var networkReleased := network.Release(e.fails);
      if !networkReleased { errs := errs + 1; }
      var socketRemoved := false;
      if machineStopped {
        if !e.socket {
          errs := errs + 1;
        } else {
          socket := false;
          socketRemoved := true;
        }
      }
      if machineStopped { machine := false; }
      if errs > 0 || !machineStopped || !networkReleased || !socketRemoved {
        state := CleanupFailed;
        return false;
      }
      state := Stopped;
      return true;
    }
  }
}
