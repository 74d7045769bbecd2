/** What is really there on the host, kept apart from what the code records: TAP devices, firewall entries and machines.
    The record is right in every reachable state. */
module VmHost {
  import opened Common
  import opened Ipam
  import opened Leases
  import opened Lifecycle
  import opened VmProtocol
  import opened VmInvariant
  import opened VmSteps
  import opened VmRuns
  import opened VmTheorems
  import opened VmRemoval

  datatype Resource = TapDevice | FirewallEntries

  /** The network resources made for each allocation and not removed since, and the instances whose machine was built
      and not stopped since. */
  datatype Host = Host(net: map<Ref, set<Resource>>, machines: set<Ref>)

  function NetOf(h: Host, a: Ref): set<Resource> {
    if a in h.net then h.net[a] else {}
  }

  /** What a cleanup step removes when its host call succeeds. */
  function Undoes(step: Cleanup): Resource {
    match step
    case RemoveTap => TapDevice
    case RemoveFirewall => FirewallEntries
  }

  /** The host calls of Setup, which makes none for an allocation that is released or was set up before: the TAP first,
      and the firewall entries once there is a TAP. */
  function HostAfterSetup(h: Host, a: Ref, l: Lease, tapOk: bool, firewallOk: bool): Host {
    if l.released || l.cleanup != [] then h
    else h.(net := h.net[a := NetOf(h, a) + (if tapOk then {TapDevice} else {})
                              + (if tapOk && firewallOk then {FirewallEntries} else {})])
  }

  /** The host calls of Release: every recorded step is tried, and those that succeed remove their resource. */
  function HostAfterRelease(h: Host, a: Ref, l: Lease, fails: set<nat>): Host {
    if l.released then h
    else h.(net := h.net[a := NetOf(h, a) - (set i | 0 <= i < |l.cleanup| && i !in fails :: Undoes(l.cleanup[i]))])
  }

  function HostStep(w: World, h: Host, ev: Event): Host {
    if !ev.Run? || ev.t !in w.threads then h
    else
      match w.threads[ev.t]
      case CfSetup(r, _) =>
        if HasLease(w, r) then HostAfterSetup(h, w.insts[r].net, LeaseOf(w, r), ev.env.ok, ev.env.ok2) else h
      case CfBuild(r, _) => if HasLease(w, r) && ev.env.ok then h.(machines := h.machines + {r}) else h
      case CfRelease(r, _) =>
        if HasLease(w, r) then HostAfterRelease(h, w.insts[r].net, LeaseOf(w, r), ev.env.fails) else h
      case CrUndo(net, _) => if net in w.leases then HostAfterRelease(h, net, w.leases[net], ev.env.fails) else h
      case SpKill(r, _, machine) => if machine && ev.env.ok then h.(machines := h.machines - {r}) else h
      case SpRelease(r, _, _) =>
        if HasLease(w, r) then HostAfterRelease(h, w.insts[r].net, LeaseOf(w, r), ev.env.fails) else h
      case _ => h
  }

  predicate HasLease(w: World, r: Ref) {
    r in w.insts && w.insts[r].net in w.leases
  }

  function LeaseOf(w: World, r: Ref): Lease
    requires HasLease(w, r)
  {
    w.leases[w.insts[r].net]
  }

  /** The host after a run that began with nothing on it. */
  function HostAfter(w0: World, evs: seq<Event>): Host {
    if evs == [] then Host(map[], {})
    else HostStep(Exec(w0, evs[..|evs| - 1]), HostAfter(w0, evs[..|evs| - 1]), evs[|evs| - 1])
  }

  // ---- network resources ----

  function Owed(steps: seq<Cleanup>): set<Resource> {
    set i | 0 <= i < |steps| :: Undoes(steps[i])
  }

  ghost predicate NetInv(w: World, h: Host) {
    && (forall a: Ref :: a in w.leases ==> NetOf(h, a) == Owed(w.leases[a].cleanup))
    && (forall a: Ref :: a in h.net ==> a in w.leases)
  }

  lemma SetupIsRecorded(h: Host, a: Ref, l: Lease, tapOk: bool, firewallOk: bool)
    requires NetOf(h, a) == Owed(l.cleanup)
    ensures NetOf(HostAfterSetup(h, a, l, tapOk, firewallOk), a) == Owed(SetUp(l, tapOk, firewallOk).0.cleanup)
  {
    var steps := SetUp(l, tapOk, firewallOk).0.cleanup;
    if !l.released && l.cleanup == [] {
      assert Owed(l.cleanup) == {};
      forall x
        ensures x in Owed(steps) <==> (x == TapDevice && tapOk) || (x == FirewallEntries && tapOk && firewallOk)
      {
        if tapOk { assert Undoes(steps[0]) in Owed(steps); }
        if tapOk && firewallOk { assert Undoes(steps[1]) in Owed(steps); }
      }
    }
  }

  lemma RemovalsDiffer(x: Cleanup, y: Cleanup)
    ensures Undoes(x) == Undoes(y) <==> x == y
  {
  }

  lemma OwedMember(steps: seq<Cleanup>, x: Cleanup)
    ensures Undoes(x) in Owed(steps) <==> x in steps
  {
    if Undoes(x) in Owed(steps) {
      var i :| 0 <= i < |steps| && Undoes(steps[i]) == Undoes(x);
      RemovalsDiffer(steps[i], x);
    }
    if x in steps {
      var i :| 0 <= i < |steps| && steps[i] == x;
    }
  }

  lemma ReleaseIsRecorded(h: Host, a: Ref, l: Lease, fails: set<nat>)
    requires NetOf(h, a) == Owed(l.cleanup) && NoDup(l.cleanup)
    ensures NetOf(HostAfterRelease(h, a, l, fails), a) == Owed(AfterRelease(l, fails).cleanup)
  {
    if !l.released {
      var gone := set i | 0 <= i < |l.cleanup| && i !in fails :: Undoes(l.cleanup[i]);
      var kept := Retained(l.cleanup, fails);
      RetainedMembers(l.cleanup, fails);
      forall x: Cleanup ensures Undoes(x) in Owed(kept) <==> Undoes(x) in Owed(l.cleanup) - gone {
        OwedMember(kept, x);
        OwedMember(l.cleanup, x);
        StepIsGone(l.cleanup, fails, x);
      }
      SameResources(Owed(kept), Owed(l.cleanup) - gone);
    }
  }

  lemma StepIsGone(steps: seq<Cleanup>, fails: set<nat>, x: Cleanup)
    requires NoDup(steps)
    ensures Undoes(x) in (set i | 0 <= i < |steps| && i !in fails :: Undoes(steps[i])) <==>
            x in steps && x !in Retained(steps, fails)
  {
    RetainedMembers(steps, fails);
    var gone := set i | 0 <= i < |steps| && i !in fails :: Undoes(steps[i]);
    if Undoes(x) in gone {
      var i :| 0 <= i < |steps| && i !in fails && Undoes(steps[i]) == Undoes(x);
      RemovalsDiffer(steps[i], x);
    }
    if x in steps && x !in Retained(steps, fails) {
      var i :| 0 <= i < |steps| && steps[i] == x;
      assert i !in fails;
    }
  }

  lemma SameResources(s: set<Resource>, s': set<Resource>)
    requires forall x: Cleanup :: Undoes(x) in s <==> Undoes(x) in s'
    ensures s == s'
  {
    forall y: Resource ensures y in s <==> y in s' {
      match y
      case TapDevice => assert Undoes(RemoveTap) == y;
      case FirewallEntries => assert Undoes(RemoveFirewall) == y;
    }
  }

  /** The lease map after a step, by where the thread stands. */
  ghost predicate LeasesBecome(w: World, pc: Pc, e: Env, ls: map<Ref, Lease>) {
    match pc
    case CfSetup(r, _) => HasLease(w, r) && ls == w.leases[w.insts[r].net := SetUp(LeaseOf(w, r), e.ok, e.ok2).0]
    case CfRelease(r, _) => HasLease(w, r) && ls == w.leases[w.insts[r].net := AfterRelease(LeaseOf(w, r), e.fails)]
    case SpRelease(r, _, _) => HasLease(w, r) && ls == w.leases[w.insts[r].net := AfterRelease(LeaseOf(w, r), e.fails)]
    case CrUndo(net, _) => net in w.leases && ls == w.leases[net := AfterRelease(w.leases[net], e.fails)]
    case CrAcquire(_, _) =>
      || ls == w.leases
      || (e.newRef !in w.leases && e.newRef in ls && ls[e.newRef].cleanup == []
          && ls == w.leases[e.newRef := ls[e.newRef]])
    case _ => ls == w.leases
  }

  lemma ConfigureOnLeases(w: World, t: Tid, e: Env)
    requires Near(w, t) && InConfigure(w.threads[t])
    ensures LeasesBecome(w, w.threads[t], e, ConfigureStep(w, t, w.threads[t], e).leases)
  {
  }

  lemma StopOnLeases(w: World, t: Tid, e: Env)
    requires Near(w, t) && InStop(w.threads[t])
    ensures LeasesBecome(w, w.threads[t], e, StopStep(w, t, w.threads[t], e).leases)
  {
  }

  lemma StartOnLeases(w: World, t: Tid, e: Env)
    requires Near(w, t) && InStart(w.threads[t])
    ensures LeasesBecome(w, w.threads[t], e, StartStep(w, t, w.threads[t], e).leases)
  {
  }

  lemma UndoHasLease(w: World, t: Tid)
    requires Near(w, t)
    ensures w.threads[t].CrUndo? ==> w.threads[t].net in w.leases
  {
  }

  lemma AcquireOnLeases(w: World, t: Tid, e: Env)
    requires t in w.threads && w.threads[t].CrAcquire?
    ensures LeasesBecome(w, w.threads[t], e, CreateStep(w, t, w.threads[t], e).leases)
  {
    var ls := CreateStep(w, t, w.threads[t], e).leases;
    if e.newRef !in w.leases && Allocated(w.pool).1.Granted? {
      var g := Allocated(w.pool).1;
      assert ls == w.leases[e.newRef := Lease(g.subnet, g.cid, [], false)];
    } else {
      assert ls == w.leases;
    }
  }

  lemma UndoOnLeases(w: World, t: Tid, e: Env)
    requires t in w.threads && w.threads[t].CrUndo? && w.threads[t].net in w.leases
    ensures LeasesBecome(w, w.threads[t], e, CreateStep(w, t, w.threads[t], e).leases)
  {
  }

  lemma CheckOnLeases(w: World, t: Tid, e: Env)
    requires t in w.threads && w.threads[t].CrCheck?
    ensures CreateStep(w, t, w.threads[t], e).leases == w.leases
  {
  }

  lemma InsertOnLeases(w: World, t: Tid, e: Env)
    requires t in w.threads && w.threads[t].CrInsert?
    ensures CreateStep(w, t, w.threads[t], e).leases == w.leases
  {
  }

  lemma TableOnLeases(w: World, t: Tid, e: Env)
    requires t in w.threads && InTableSection(w.threads[t])
    ensures TableStep(w, t, w.threads[t], e).leases == w.leases
  {
  }

  lemma RunOnLeases(w: World, t: Tid, e: Env)
    requires Near(w, t)
    ensures LeasesBecome(w, w.threads[t], e, RunStep(w, t, e).leases)
  {
    RunStepIs(w, t, e);
    if InConfigure(w.threads[t]) {
      ConfigureOnLeases(w, t, e);
    } else if InStart(w.threads[t]) {
      StartOnLeases(w, t, e);
    } else if InStop(w.threads[t]) {
      StopOnLeases(w, t, e);
    } else if w.threads[t].CrAcquire? {
      AcquireOnLeases(w, t, e);
    } else if w.threads[t].CrUndo? {
      UndoHasLease(w, t);
      UndoOnLeases(w, t, e);
    } else if w.threads[t].CrCheck? {
      CheckOnLeases(w, t, e);
    } else if w.threads[t].CrInsert? {
      InsertOnLeases(w, t, e);
    } else if InTableSection(w.threads[t]) {
      TableOnLeases(w, t, e);
    }
  }

  /** One lease and its resources change together. */
  lemma NetUpdated(w: World, h: Host, w': World, h': Host, a: Ref, l: Lease)
    requires NetInv(w, h) && a in w.leases && w'.leases == w.leases[a := l]
    requires NetOf(h', a) == Owed(l.cleanup) && h'.net.Keys <= h.net.Keys + {a}
    requires forall b: Ref :: b != a ==> NetOf(h', b) == NetOf(h, b)
    ensures NetInv(w', h')
  {
  }

  lemma NetSame(w: World, h: Host, w': World, h': Host)
    requires NetInv(w, h) && w'.leases == w.leases && h'.net == h.net
    ensures NetInv(w', h')
  {
    forall a: Ref | a in w'.leases ensures NetOf(h', a) == Owed(w'.leases[a].cleanup) {
      assert NetOf(h', a) == NetOf(h, a);
    }
  }

  lemma NetAcquired(w: World, h: Host, w': World, a: Ref)
    requires NetInv(w, h) && a !in w.leases && a in w'.leases && w'.leases[a].cleanup == []
    requires w'.leases == w.leases[a := w'.leases[a]]
    ensures NetInv(w', h)
  {
    assert a !in h.net && Owed([]) == {};
  }

  lemma SetupStepKeepsNet(w: World, h: Host, w': World, r: Ref, e: Env)
    requires NetInv(w, h) && HasLease(w, r)
    requires w'.leases == w.leases[w.insts[r].net := SetUp(LeaseOf(w, r), e.ok, e.ok2).0]
    ensures NetInv(w', HostAfterSetup(h, w.insts[r].net, LeaseOf(w, r), e.ok, e.ok2))
  {
    var a, l := w.insts[r].net, LeaseOf(w, r);
    SetupIsRecorded(h, a, l, e.ok, e.ok2);
    NetUpdated(w, h, w', HostAfterSetup(h, a, l, e.ok, e.ok2), a, SetUp(l, e.ok, e.ok2).0);
  }

  lemma ReleaseStepKeepsNet(w: World, h: Host, w': World, a: Ref, e: Env)
    requires NetInv(w, h) && a in w.leases && NoDup(w.leases[a].cleanup)
    requires w'.leases == w.leases[a := AfterRelease(w.leases[a], e.fails)]
    ensures NetInv(w', HostAfterRelease(h, a, w.leases[a], e.fails))
  {
    var l := w.leases[a];
    ReleaseIsRecorded(h, a, l, e.fails);
    NetUpdated(w, h, w', HostAfterRelease(h, a, l, e.fails), a, AfterRelease(l, e.fails));
  }

  lemma RunKeepsNet(w: World, h: Host, t: Tid, e: Env)
    requires Near(w, t) && NetInv(w, h)
    requires forall a: Ref :: a in w.leases ==> NoDup(w.leases[a].cleanup)
    ensures NetInv(RunStep(w, t, e), HostStep(w, h, Run(t, e)))
  {
    RunOnLeases(w, t, e);
    var w' := RunStep(w, t, e);
    match w.threads[t]
    case CfSetup(r, _) => SetupStepKeepsNet(w, h, w', r, e);
    case CfRelease(r, _) => ReleaseStepKeepsNet(w, h, w', w.insts[r].net, e);
    case SpRelease(r, _, _) => ReleaseStepKeepsNet(w, h, w', w.insts[r].net, e);
    case CrUndo(net, _) => ReleaseStepKeepsNet(w, h, w', net, e);
    case CrAcquire(_, _) =>
      if w'.leases == w.leases { NetSame(w, h, w', h); } else { NetAcquired(w, h, w', e.newRef); }
    case _ => NetSame(w, h, w', HostStep(w, h, Run(t, e)));
  }

  lemma CallKeepsLeases(w: World, t: Tid, call: Call)
    ensures BeginStep(w, t, call).leases == w.leases
  {
  }

  lemma CleanupsAreDistinct(w: World)
    requires Inv(w)
    ensures forall a: Ref :: a in w.leases ==> NoDup(w.leases[a].cleanup)
  {
  }

  lemma StepKeepsNet(w: World, h: Host, ev: Event)
    requires Inv(w) && NetInv(w, h)
    ensures NetInv(Step(w, ev), HostStep(w, h, ev))
  {
    match ev
    case Begin(t, call) =>
      CallKeepsLeases(w, t, call);
      NetSame(w, h, Step(w, ev), h);
    case Run(t, e) =>
      if t in w.threads {
        ThreadIsNear(w, t);
        CleanupsAreDistinct(w);
        RunKeepsNet(w, h, t, e);
      }
  }

  // ---- machines ----

  /** Whether a machine is up while a thread stands at pc in the middle of a call on its instance. */
  predicate UpAt(pc: Pc, recorded: bool) {
    match pc
    case CfCommit(_, _) => true
    case SpRelease(_, _, stopped) => recorded && !stopped
    case SpSocket(_, _, stopped, _) => recorded && !stopped
    case SpExit(_, _, stopped, _, _) => recorded && !stopped
    case _ => recorded
  }

  /** At rest the record is right; in the middle of a call the thread knows what it will write. */
  ghost predicate MachineInv(w: World, h: Host) {
    && (forall r: Ref :: r in h.machines ==> r in w.insts)
    && (forall r: Ref :: r in w.insts && !Transitional(w.insts[r].vm.state) ==>
          (r in h.machines <==> w.insts[r].vm.machine))
    && (forall t: Tid :: Mid(w, t).Some? ==>
          Mid(w, t).value.0 in w.insts
          && (Mid(w, t).value.0 in h.machines <==> UpAt(w.threads[t], w.insts[Mid(w, t).value.0].vm.machine)))
  }

  /** What MachineInv says of one thread and the instance it works on. */
  predicate UpFor(w: World, h: Host, t: Tid, r: Ref) {
    && r in w.insts
    && (Mid(w, t).Some? ==>
          Mid(w, t).value.0 == r && (r in h.machines <==> UpAt(w.threads[t], w.insts[r].vm.machine)))
    && (Mid(w, t).None? && !Transitional(w.insts[r].vm.state) ==> (r in h.machines <==> w.insts[r].vm.machine))
  }

  lemma ConfigureKeepsUp(w: World, h: Host, t: Tid, e: Env)
    requires Near(w, t) && InConfigure(w.threads[t]) && UpFor(w, h, t, w.threads[t].r)
    ensures UpFor(ConfigureStep(w, t, w.threads[t], e), HostStep(w, h, Run(t, e)), t, w.threads[t].r)
  {
  }

  lemma StartKeepsUp(w: World, h: Host, t: Tid, e: Env)
    requires Near(w, t) && InStart(w.threads[t]) && UpFor(w, h, t, w.threads[t].r)
    ensures UpFor(StartStep(w, t, w.threads[t], e), HostStep(w, h, Run(t, e)), t, w.threads[t].r)
  {
  }

  lemma AfterStopIsOutside(r: Ref, k: Caller, ok: bool, early: bool)
    ensures MidOpt(AfterStop(r, k, ok, early)).None?
  {
  }

  lemma StopEntersUp(w: World, h: Host, t: Tid, e: Env)
    requires Near(w, t) && w.threads[t].SpEnter? && UpFor(w, h, t, w.threads[t].r)
    ensures UpFor(StopStep(w, t, w.threads[t], e), h, t, w.threads[t].r)
  {
    AfterStopIsOutside(w.threads[t].r, w.threads[t].k, true, true);
  }

  lemma StopExitsUp(w: World, h: Host, t: Tid, e: Env)
    requires Near(w, t) && w.threads[t].SpExit? && UpFor(w, h, t, w.threads[t].r)
    ensures UpFor(StopStep(w, t, w.threads[t], e), h, t, w.threads[t].r)
  {
    var SpExit(r, k, stopped, released, gone) := w.threads[t];
    AfterStopIsOutside(r, k, stopped && released && gone, false);
  }

  lemma StopKillsUp(w: World, h: Host, t: Tid, e: Env)
    requires Near(w, t) && w.threads[t].SpKill? && UpFor(w, h, t, w.threads[t].r)
    ensures UpFor(StopStep(w, t, w.threads[t], e), HostStep(w, h, Run(t, e)), t, w.threads[t].r)
  {
  }

  lemma StopGoesOnUp(w: World, h: Host, t: Tid, e: Env)
    requires Near(w, t) && (w.threads[t].SpRelease? || w.threads[t].SpSocket?) && UpFor(w, h, t, w.threads[t].r)
    ensures UpFor(StopStep(w, t, w.threads[t], e), HostStep(w, h, Run(t, e)), t, w.threads[t].r)
  {
  }

  lemma RunKeepsUp(w: World, h: Host, t: Tid, e: Env)
    requires Near(w, t) && UpOrNone(w, h, t)
    requires InConfigure(w.threads[t]) || InStart(w.threads[t]) || InStop(w.threads[t])
    ensures UpFor(RunStep(w, t, e), HostStep(w, h, Run(t, e)), t, w.threads[t].r)
  {
    RunStepIs(w, t, e);
    if InConfigure(w.threads[t]) {
      ConfigureKeepsUp(w, h, t, e);
    } else if InStart(w.threads[t]) {
      StartKeepsUp(w, h, t, e);
    } else if w.threads[t].SpEnter? {
      StopEntersUp(w, h, t, e);
    } else if w.threads[t].SpExit? {
      StopExitsUp(w, h, t, e);
    } else if w.threads[t].SpKill? {
      StopKillsUp(w, h, t, e);
    } else {
      StopGoesOnUp(w, h, t, e);
    }
  }

  predicate UpOrNone(w: World, h: Host, t: Tid)
    requires t in w.threads
  {
    InConfigure(w.threads[t]) || InStart(w.threads[t]) || InStop(w.threads[t]) ==> UpFor(w, h, t, w.threads[t].r)
  }

  // ---- the instances a step leaves alone ----

  /** The instance whose lock or middle section the position is about. */
  predicate WorksOn(pc: Pc, r: Ref) {
    (InConfigure(pc) || InStart(pc) || InStop(pc)) && pc.r == r
  }

  lemma ConfigureOnOthers(w: World, t: Tid, e: Env, q: Ref)
    requires t in w.threads && InConfigure(w.threads[t]) && q in w.insts && w.threads[t].r != q
    ensures var w' := ConfigureStep(w, t, w.threads[t], e); q in w'.insts && w'.insts[q] == w.insts[q]
  {
  }

  lemma StartOnOthers(w: World, t: Tid, e: Env, q: Ref)
    requires t in w.threads && InStart(w.threads[t]) && q in w.insts && w.threads[t].r != q
    ensures var w' := StartStep(w, t, w.threads[t], e); q in w'.insts && w'.insts[q] == w.insts[q]
  {
  }

  lemma StopOnOthers(w: World, t: Tid, e: Env, q: Ref)
    requires t in w.threads && InStop(w.threads[t]) && q in w.insts && w.threads[t].r != q
    ensures var w' := StopStep(w, t, w.threads[t], e); q in w'.insts && w'.insts[q] == w.insts[q]
  {
  }

  lemma RunOnOthers(w: World, t: Tid, e: Env, q: Ref)
    requires t in w.threads && q in w.insts && !WorksOn(w.threads[t], q)
    ensures q in RunStep(w, t, e).insts && RunStep(w, t, e).insts[q] == w.insts[q]
  {
    RunStepIs(w, t, e);
    if InConfigure(w.threads[t]) {
      ConfigureOnOthers(w, t, e, q);
    } else if InStart(w.threads[t]) {
      StartOnOthers(w, t, e, q);
    } else if InStop(w.threads[t]) {
      StopOnOthers(w, t, e, q);
    } else if InCreate(w.threads[t]) {
      CreateOnInsts(w, t, e, q);
    } else if InTableSection(w.threads[t]) {
      TableOnInsts(w, t, e);
    }
  }

  // ---- where threads land ----

  lemma CreateLandsOutside(w: World, t: Tid, e: Env)
    requires t in w.threads && InCreate(w.threads[t])
    ensures Mid(CreateStep(w, t, w.threads[t], e), t).None?
  {
  }

  lemma TableLandsOutside(w: World, t: Tid, e: Env)
    requires t in w.threads && InTableSection(w.threads[t])
    ensures Mid(TableStep(w, t, w.threads[t], e), t).None?
  {
  }

  predicate InCall(pc: Pc) {
    InConfigure(pc) || InStart(pc) || InStop(pc)
  }

  lemma OthersLandOutside(w: World, t: Tid, e: Env)
    requires t in w.threads && !InCall(w.threads[t])
    ensures Mid(RunStep(w, t, e), t).None?
  {
    RunStepIs(w, t, e);
    if InCreate(w.threads[t]) {
      CreateLandsOutside(w, t, e);
    } else if InTableSection(w.threads[t]) {
      TableLandsOutside(w, t, e);
    }
  }

  lemma CallLandsOutside(w: World, t: Tid, call: Call)
    requires t !in w.threads
    ensures Mid(BeginStep(w, t, call), t).None?
  {
  }

  // ---- machines, step by step ----

  lemma MachinesElsewhere(w: World, h: Host, ev: Event, q: Ref)
    requires !(ev.Run? && ev.t in w.threads && WorksOn(w.threads[ev.t], q) && MidOf(w.threads[ev.t]).Some?)
    ensures q in HostStep(w, h, ev).machines <==> q in h.machines
  {
  }

  lemma MoveOnNew(w: World, t: Tid, m: Move, q: Ref)
    requires Enabled(w, m) && q in Moved(w, t, m).insts && q !in w.insts
    ensures Moved(w, t, m).insts[q].vm == Vm(Created, false)
  {
  }

  /** What MachineInv gives for the thread that is about to step. */
  lemma UpForActor(w: World, h: Host, t: Tid)
    requires MachineInv(w, h) && Near(w, t)
    ensures UpOrNone(w, h, t)
  {
    if InCall(w.threads[t]) { PcHasInstance(w, w.threads[t]); }
  }

  lemma ElsewhereSame(w: World, h: Host, ev: Event, q: Ref)
    requires q in w.insts && !(ev.Run? && ev.t in w.threads && WorksOn(w.threads[ev.t], q))
    ensures q in Step(w, ev).insts && Step(w, ev).insts[q] == w.insts[q]
    ensures q in HostStep(w, h, ev).machines <==> q in h.machines
  {
    MachinesElsewhere(w, h, ev, q);
    match ev
    case Begin(t, call) => CallKeepsInsts(w, t, call);
    case Run(t, e) => if t in w.threads { RunOnOthers(w, t, e, q); }
  }

  lemma ActorUp(w: World, h: Host, ev: Event)
    requires Inv(w) && MachineInv(w, h) && ev.Run? && ev.t in w.threads && InCall(w.threads[ev.t])
    ensures UpFor(Step(w, ev), HostStep(w, h, ev), ev.t, w.threads[ev.t].r)
  {
    ThreadIsNear(w, ev.t);
    UpForActor(w, h, ev.t);
    RunKeepsUp(w, h, ev.t, ev.env);
  }

  lemma MidMeansTransitional(w: World, t: Tid, r: Ref)
    requires Inv(w) && Mid(w, t).Some? && Mid(w, t).value.0 == r
    ensures r in w.insts && Transitional(w.insts[r].vm.state)
  {
    MidIsTransitional(w, t);
  }

  lemma RestKept(w: World, h: Host, ev: Event, q: Ref)
    requires Inv(w) && MachineInv(w, h) && Inv(Step(w, ev))
    requires q in Step(w, ev).insts && !Transitional(Step(w, ev).insts[q].vm.state)
    ensures q in HostStep(w, h, ev).machines <==> Step(w, ev).insts[q].vm.machine
  {
    if q !in w.insts {
      NewIsDown(w, h, ev, q);
    } else if ev.Run? && ev.t in w.threads && WorksOn(w.threads[ev.t], q) {
      ActorUp(w, h, ev);
      if Mid(Step(w, ev), ev.t).Some? { MidMeansTransitional(Step(w, ev), ev.t, q); }
    } else {
      ElsewhereSame(w, h, ev, q);
    }
  }

  lemma NewIsDown(w: World, h: Host, ev: Event, q: Ref)
    requires Inv(w) && MachineInv(w, h) && q in Step(w, ev).insts && q !in w.insts
    ensures q !in HostStep(w, h, ev).machines && Step(w, ev).insts[q].vm == Vm(Created, false)
  {
    MachinesExist(w, h, ev, q);
    NewInstance(w, ev, q);
  }

  lemma NewInstance(w: World, ev: Event, q: Ref)
    requires Inv(w) && q in Step(w, ev).insts && q !in w.insts
    ensures Step(w, ev).insts[q].vm == Vm(Created, false)
  {
    var m := StepIsMove(w, ev);
    MoveOnNew(w, ev.t, m, q);
  }

  /** Only instances get machines. */
  lemma MachinesExist(w: World, h: Host, ev: Event, q: Ref)
    ensures q in HostStep(w, h, ev).machines ==> q in h.machines || q in w.insts
  {
  }

  lemma OwnMidKept(w: World, h: Host, ev: Event)
    requires Inv(w) && MachineInv(w, h) && Mid(Step(w, ev), ev.t).Some?
    ensures ev.t in Step(w, ev).threads
    ensures UpFor(Step(w, ev), HostStep(w, h, ev), ev.t, Mid(Step(w, ev), ev.t).value.0)
  {
    match ev
    case Begin(t, call) =>
      if t !in w.threads { CallLandsOutside(w, t, call); }
      OldMidKept(w, h, ev, t);
    case Run(t, e) =>
      if t in w.threads && InCall(w.threads[t]) {
        ActorUp(w, h, ev);
      } else if t in w.threads {
        OthersLandOutside(w, t, e);
      }
  }

  /** A call that cannot begin, because its thread is busy, changes nothing. */
  lemma OldMidKept(w: World, h: Host, ev: Event, t: Tid)
    requires MachineInv(w, h) && ev.Begin? && ev.t == t && t in w.threads && Mid(w, t).Some?
    ensures Step(w, ev) == w && HostStep(w, h, ev) == h && UpFor(w, h, t, Mid(w, t).value.0)
  {
  }

  /** Two threads are never in the middle of calls on one instance. */
  lemma NotBothMid(w: World, t: Tid, u: Tid, r: Ref)
    requires Inv(w) && t in w.threads && t != u && Mid(w, u).Some? && Mid(w, u).value.0 == r && WorksOn(w.threads[t], r)
    ensures MidOf(w.threads[t]).None?
  {
    assert Mid(w, t) == MidOf(w.threads[t]);
    if Mid(w, t).Some? { MidIsRef(w.threads[t]); }
  }

  lemma MidIsRef(pc: Pc)
    requires MidOf(pc).Some?
    ensures InCall(pc) && MidOf(pc).value.0 == pc.r
  {
  }

  lemma OthersThreadSame(w: World, ev: Event, u: Tid)
    requires Inv(w) && u != ev.t
    ensures Mid(Step(w, ev), u) == Mid(w, u)
    ensures Mid(w, u).Some? ==> u in Step(w, ev).threads && Step(w, ev).threads[u] == w.threads[u]
  {
    var m := StepIsMove(w, ev);
    MoveOnOthers(w, ev.t, m, u);
  }

  lemma OtherMidKept(w: World, h: Host, ev: Event, u: Tid)
    requires Inv(w) && MachineInv(w, h) && u != ev.t && Mid(w, u).Some?
    ensures UpFor(Step(w, ev), HostStep(w, h, ev), u, Mid(w, u).value.0)
  {
    var r := Mid(w, u).value.0;
    OthersThreadSame(w, ev, u);
    HolderKeeps(w, ev, u, r);
    if ev.Run? && ev.t in w.threads && WorksOn(w.threads[ev.t], r) { NotBothMid(w, ev.t, u, r); }
    MachinesElsewhere(w, h, ev, r);
  }

  lemma MidKept(w: World, h: Host, ev: Event, u: Tid)
    requires Inv(w) && MachineInv(w, h) && Mid(Step(w, ev), u).Some?
    ensures UpFor(Step(w, ev), HostStep(w, h, ev), u, Mid(Step(w, ev), u).value.0)
  {
    if u == ev.t {
      OwnMidKept(w, h, ev);
    } else {
      OthersThreadSame(w, ev, u);
      OtherMidKept(w, h, ev, u);
    }
  }

  lemma MachinesAreInstances(w: World, h: Host, ev: Event, q: Ref)
    requires Inv(w) && MachineInv(w, h) && q in HostStep(w, h, ev).machines
    ensures q in Step(w, ev).insts
  {
    MachinesExist(w, h, ev, q);
    var m := StepIsMove(w, ev);
    MoveOnInstance(w, ev.t, m, q);
  }

  lemma StepKeepsMachines(w: World, h: Host, ev: Event)
    requires Inv(w) && MachineInv(w, h)
    ensures MachineInv(Step(w, ev), HostStep(w, h, ev))
  {
    var w', h' := Step(w, ev), HostStep(w, h, ev);
    StepKeeps(w, ev);
    forall r: Ref | r in h'.machines ensures r in w'.insts { MachinesAreInstances(w, h, ev, r); }
    forall r: Ref | r in w'.insts && !Transitional(w'.insts[r].vm.state)
      ensures r in h'.machines <==> w'.insts[r].vm.machine
    {
      RestKept(w, h, ev, r);
    }
    forall u: Tid | Mid(w', u).Some?
      ensures Mid(w', u).value.0 in w'.insts
      ensures Mid(w', u).value.0 in h'.machines <==> UpAt(w'.threads[u], w'.insts[Mid(w', u).value.0].vm.machine)
    {
      MidKept(w, h, ev, u);
    }
  }

  // ---- every run ----

  lemma NothingAtFirst(w0: World)
    requires Init(w0)
    ensures NetInv(w0, Host(map[], {})) && MachineInv(w0, Host(map[], {}))
  {
  }

  lemma HostNext(w0: World, evs: seq<Event>)
    requires Init(w0) && evs != []
    requires var init := evs[..|evs| - 1];
             NetInv(Exec(w0, init), HostAfter(w0, init)) && MachineInv(Exec(w0, init), HostAfter(w0, init))
    ensures NetInv(Exec(w0, evs), HostAfter(w0, evs)) && MachineInv(Exec(w0, evs), HostAfter(w0, evs))
  {
    var init, last := evs[..|evs| - 1], evs[|evs| - 1];
    AlwaysInv(w0, init);
    StepKeepsNet(Exec(w0, init), HostAfter(w0, init), last);
    StepKeepsMachines(Exec(w0, init), HostAfter(w0, init), last);
  }

  lemma {:induction false} HostAlways(w0: World, evs: seq<Event>)
    requires Init(w0)
    ensures NetInv(Exec(w0, evs), HostAfter(w0, evs)) && MachineInv(Exec(w0, evs), HostAfter(w0, evs))
    decreases |evs|
  {
    if evs == [] {
      NothingAtFirst(w0);
    } else {
      HostAlways(w0, evs[..|evs| - 1]);
      HostNext(w0, evs);
    }
  }

  lemma NetIsRecorded(w: World, h: Host, a: Ref)
    requires NetInv(w, h) && a in w.leases
    ensures TapDevice in NetOf(h, a) <==> RemoveTap in w.leases[a].cleanup
    ensures FirewallEntries in NetOf(h, a) <==> RemoveFirewall in w.leases[a].cleanup
  {
    OwedMember(w.leases[a].cleanup, RemoveTap);
    OwedMember(w.leases[a].cleanup, RemoveFirewall);
    assert Undoes(RemoveTap) == TapDevice && Undoes(RemoveFirewall) == FirewallEntries;
  }

  /** After every run, whatever failed: a TAP or a firewall entry is on the host exactly when the allocation has the
      step that removes it on record, and so a returned allocation has left nothing. */
  lemma NetworkRecordIsTrue(w0: World, evs: seq<Event>, a: Ref)
    requires Init(w0) && a in Exec(w0, evs).leases
    ensures var l, net := Exec(w0, evs).leases[a], NetOf(HostAfter(w0, evs), a);
            && (TapDevice in net <==> RemoveTap in l.cleanup)
            && (FirewallEntries in net <==> RemoveFirewall in l.cleanup)
            && (l.released ==> net == {})
  {
    HostAlways(w0, evs);
    AlwaysInv(w0, evs);
    NetIsRecorded(Exec(w0, evs), HostAfter(w0, evs), a);
    LeaseIsBooked(Exec(w0, evs), a);
  }

  /** After every run, an instance that no call is in the middle of has a machine on the host exactly when it has one on
      record: none is forgotten, and none is stopped twice. */
  lemma MachineRecordIsTrue(w0: World, evs: seq<Event>, r: Ref)
    requires Init(w0) && r in Exec(w0, evs).insts && !Transitional(Exec(w0, evs).insts[r].vm.state)
    ensures r in HostAfter(w0, evs).machines <==> Exec(w0, evs).insts[r].vm.machine
  {
    HostAlways(w0, evs);
  }

  lemma SettledIsDown(w: World, h: Host, r: Ref)
    requires Inv(w) && NetInv(w, h) && MachineInv(w, h) && Settled(w, r)
    ensures NetOf(h, w.insts[r].net) == {} && r !in h.machines
  {
    LeaseIsBooked(w, w.insts[r].net);
    assert Owed([]) == {};
    if w.insts[r].vm.state == Configuring {
      var t: Tid :| Mid(w, t) == Some((r, Configuring));
      ThreadIsNear(w, t);
      NotBuilt(w, t, r);
    }
  }

  /** A Configure that has built its machine holds an unreturned lease. */
  lemma NotBuilt(w: World, t: Tid, r: Ref)
    requires Near(w, t) && Mid(w, t) == Some((r, Configuring)) && w.leases[w.insts[r].net].released
    ensures !UpAt(w.threads[t], false)
  {
  }

  /** Settled means settled on the host too: no TAP, no firewall entry, no machine. So in a run of careful removals
      nothing at all is left outside the table. */
  lemma SettledLeavesNothing(w0: World, evs: seq<Event>, r: Ref)
    requires Init(w0) && Settled(Exec(w0, evs), r)
    ensures NetOf(HostAfter(w0, evs), Exec(w0, evs).insts[r].net) == {} && r !in HostAfter(w0, evs).machines
  {
    HostAlways(w0, evs);
    AlwaysInv(w0, evs);
    SettledIsDown(Exec(w0, evs), HostAfter(w0, evs), r);
  }

  lemma NearAfter(w0: World, evs: seq<Event>, r: Ref)
    requires Init(w0) && r in Exec(w0, evs).insts
    ensures NearInstance(Exec(w0, evs), r)
  {
    AlwaysInv(w0, evs);
    InstanceIsNear(Exec(w0, evs), r);
  }

  lemma FurnishedNet(w: World, h: Host, r: Ref)
    requires NearInstance(w, r) && NetInv(w, h) && (w.insts[r].vm.state == Configured || w.insts[r].vm.state == Running)
    ensures NetOf(h, w.insts[r].net) == {TapDevice, FirewallEntries} && w.insts[r].vm.machine
  {
    NetIsRecorded(w, h, w.insts[r].net);
  }

  /** A VM that is configured or running has its TAP, its firewall entries and its machine on the host. */
  lemma UpMeansFurnished(w0: World, evs: seq<Event>, r: Ref)
    requires Init(w0) && r in Exec(w0, evs).insts
    requires var s := Exec(w0, evs).insts[r].vm.state; s == Configured || s == Running
    ensures NetOf(HostAfter(w0, evs), Exec(w0, evs).insts[r].net) == {TapDevice, FirewallEntries}
    ensures r in HostAfter(w0, evs).machines
  {
    HostAlways(w0, evs);
    NearAfter(w0, evs, r);
    FurnishedNet(Exec(w0, evs), HostAfter(w0, evs), r);
    MachineRecordIsTrue(w0, evs, r);
  }
}
