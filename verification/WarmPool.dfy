/** The warm pool of running instances (internal/core/vmm/pool.go). Instances are known by their address; whether one is
    running is an answer from outside the pool. */
module WarmPool {
  import opened Common

  type Ref = nat
  type Tid = nat

  datatype Pool = Pool(capacity: nat, idle: seq<Ref>, inUse: map<string, Ref>)

  // ---- the lock sections ----

  function Added(p: Pool, inst: Option<Ref>, running: bool): (r: (Pool, bool)) {
    if inst.None? || !running || |p.idle| + |p.inUse| >= p.capacity then (p, false)
    else (p.(idle := p.idle + [inst.value]), true)
  }

  function CheckedOut(p: Pool, lease: string, running: bool): (r: (Pool, Option<Ref>)) {
    if lease == "" || lease in p.inUse || p.idle == [] || !running then (p, None)
    else
      var top := p.idle[|p.idle| - 1];
      (p.(idle := p.idle[..|p.idle| - 1], inUse := p.inUse[lease := top]), Some(top))
  }

  /** The first lock section of Checkin ends the lease; the instance is then reset without the lock. */
  function Ended(p: Pool, lease: string): (r: (Pool, Option<Ref>)) {
    if lease in p.inUse then (p.(inUse := p.inUse - {lease}), Some(p.inUse[lease])) else (p, None)
  }

  function GivenBack(p: Pool, inst: Ref): Pool {
    p.(idle := p.idle + [inst])
  }

  /** Add admits exactly a running instance when idle and leased ones leave room, and puts it on top. */
  lemma AddAdmitsWhen(p: Pool, inst: Option<Ref>, running: bool)
    ensures var (p', ok) := Added(p, inst, running);
            && (ok <==> inst.Some? && running && |p.idle| + |p.inUse| < p.capacity)
            && (ok ==> |p'.idle| == |p.idle| + 1 && p'.idle[|p.idle|] == inst.value && p.idle <= p'.idle
                       && p'.inUse == p.inUse && p'.capacity == p.capacity)
            && (!ok ==> p' == p)
  {
  }

  /** Checkout leases the top instance exactly for a new, named lease when that instance runs; nobody else's lease and
      no other idle instance is touched. */
  lemma CheckoutGivesTop(p: Pool, lease: string, running: bool)
    ensures var (p', got) := CheckedOut(p, lease, running);
            && (got.Some? <==> lease != "" && lease !in p.inUse && p.idle != [] && running)
            && (got.None? ==> p' == p)
            && (got.Some? ==>
                  && p.idle == p'.idle + [got.value] && p'.capacity == p.capacity
                  && lease in p'.inUse && p'.inUse[lease] == got.value
                  && p'.inUse.Keys == p.inUse.Keys + {lease}
                  && (forall x :: x in p.inUse ==> p'.inUse[x] == p.inUse[x]))
  {
  }

  /** Ending a lease takes out that lease alone, and what a checkout gave is what ending its lease gives up: leasing,
      ending and giving back leave the pool as it was. */
  lemma CheckinUndoesCheckout(p: Pool, lease: string)
    ensures lease !in p.inUse ==> Ended(p, lease) == (p, None)
    ensures lease != "" && lease !in p.inUse && p.idle != [] ==>
              var (p1, got) := CheckedOut(p, lease, true);
              var (p2, back) := Ended(p1, lease);
              back == got && got.Some? && GivenBack(p2, got.value) == p
  {
    if lease != "" && lease !in p.inUse && p.idle != [] {
      var top := p.idle[|p.idle| - 1];
      assert p.inUse[lease := top] - {lease} == p.inUse;
      assert p.idle[..|p.idle| - 1] + [top] == p.idle;
    }
  }

  class Warm {
    const capacity: nat
    var idle: seq<Ref>
    var inUse: map<string, Ref>

    ghost function View(): Pool
      reads this
    {
      Pool(capacity, idle, inUse)
    }

    constructor (capacity: nat)
      ensures View() == Pool(capacity, [], map[])
    {
      this.capacity := capacity;
      idle, inUse := [], map[];
    }

    /** NewWarmPool refuses a capacity that is not positive. */
    static method New(capacity: int) returns (p: Warm?)
      ensures p != null <==> capacity > 0
      ensures p != null ==> fresh(p) && p.View() == Pool(capacity, [], map[])
    {
      if capacity <= 0 { return null; }
      p := new Warm(capacity);
    }

    method Add(inst: Option<Ref>, running: bool) returns (ok: bool)
      modifies this
      ensures (View(), ok) == Added(old(View()), inst, running)
    {
      if inst.None? { return false; }
      if !running { return false; }
      if |idle| + |inUse| >= capacity { return false; }
      idle := idle + [inst.value];
      return true;
    }

    method Checkout(lease: string, running: bool) returns (inst: Option<Ref>)
      modifies this
      ensures (View(), inst) == CheckedOut(old(View()), lease, running)
    {
      if lease == "" { return None; }
      if lease in inUse { return None; }
      if |idle| == 0 { return None; }
      var last := |idle| - 1;
      var top := idle[last];
      idle := idle[..last];
      if !running {
        idle := idle + [top];
        assert idle == old(idle);
        return None;
      }
      inUse := inUse[lease := top];
      return Some(top);
    }

    /** Checkin without interference: the lease ends; the instance comes back only if reset succeeds and leaves it
        running, and is evicted otherwise. */
    method Checkin(lease: string, hasReset: bool, resetOk: bool, running: bool) returns (ok: bool, evicted: Option<Ref>)
      modifies this
      ensures var (p, inst) := Ended(old(View()), lease);
              if !hasReset || inst.None? then !ok && evicted == None && View() == old(View())
              else if resetOk && running then ok && evicted == None && View() == GivenBack(p, inst.value)
              else !ok && evicted == inst && View() == p
    {
      if !hasReset { return false, None; }
      if lease !in inUse { return false, None; }
      var inst := inUse[lease];
      inUse := inUse - {lease};
      if !resetOk { return false, Some(inst); }
      if !running { return false, Some(inst); }
      idle := idle + [inst];
      return true, None;
    }
  }

  // ---- any number of threads ----

  /** The pool, the instances being reset by each thread, and how many Adds succeeded while some reset was going on. */
  datatype World = World(pool: Pool, resets: map<Tid, Ref>, late: nat)

  datatype Act =
    | Add(inst: Option<Ref>, running: bool)
    | Checkout(lease: string, running: bool)
    | BeginCheckin(t: Tid, lease: string)
    | EndCheckin(t: Tid, resetOk: bool, running: bool)

  function Step(w: World, a: Act): (r: World) {
    match a
    case Add(inst, running) =>
      var (p, ok) := Added(w.pool, inst, running);
      w.(pool := p, late := w.late + if ok && w.resets != map[] then 1 else 0)
    case Checkout(lease, running) => w.(pool := CheckedOut(w.pool, lease, running).0)
    case BeginCheckin(t, lease) =>
      if t in w.resets then w
      else
        var (p, inst) := Ended(w.pool, lease);
        if inst.Some? then w.(pool := p, resets := w.resets[t := inst.value]) else w
    case EndCheckin(t, resetOk, running) =>
      if t !in w.resets then w
      else if resetOk && running then w.(pool := GivenBack(w.pool, w.resets[t]), resets := w.resets - {t})
      else w.(resets := w.resets - {t})
  }

  function Exec(w: World, acts: seq<Act>): (r: World) {
    if acts == [] then w else Step(Exec(w, acts[..|acts| - 1]), acts[|acts| - 1])
  }

  /** Where an instance can be. */
  datatype Place = Idle(k: int) | Leased(lease: string) | Resetting(t: Tid)

  predicate At(w: World, place: Place, r: Ref) {
    match place
    case Idle(k) => 0 <= k < |w.pool.idle| && w.pool.idle[k] == r
    case Leased(lease) => lease in w.pool.inUse && w.pool.inUse[lease] == r
    case Resetting(t) => t in w.resets && w.resets[t] == r
  }

  ghost predicate Known(w: World, r: Ref) {
    exists place :: At(w, place, r)
  }

  /** No instance is in two places. */
  ghost predicate Apart(w: World) {
    forall x, y, r :: At(w, x, r) && At(w, y, r) ==> x == y
  }

  /** Add is given only instances that are neither pooled nor being reset. */
  ghost predicate FreshAdds(w: World, acts: seq<Act>) {
    forall k :: 0 <= k < |acts| && acts[k].Add? && acts[k].inst.Some? ==> !Known(Exec(w, acts[..k]), acts[k].inst.value)
  }

  function Total(w: World): nat {
    |w.pool.idle| + |w.pool.inUse| + |w.resets|
  }

  /** Where a place of the new state was in the old one; an instance moves by at most one action. */
  function Origin(w: World, a: Act, place: Place): Place {
    match a
    case Checkout(lease, running) =>
      if CheckedOut(w.pool, lease, running).1.Some? && place == Leased(lease) then Idle(|w.pool.idle| - 1) else place
    case BeginCheckin(t, lease) =>
      if t !in w.resets && lease in w.pool.inUse && place == Resetting(t) then Leased(lease) else place
    case EndCheckin(t, resetOk, running) =>
      if t in w.resets && resetOk && running && place == Idle(|w.pool.idle|) then Resetting(t) else place
    case Add(_, _) => place
  }

  lemma MovesOnly(w: World, a: Act, place: Place, r: Ref)
    requires At(Step(w, a), place, r)
    requires !(a.Add? && Added(w.pool, a.inst, a.running).1 && place == Idle(|w.pool.idle|))
    ensures At(w, Origin(w, a, place), r)
  {
  }

  lemma AddLands(w: World, a: Act, r: Ref)
    requires a.Add? && Added(w.pool, a.inst, a.running).1 && At(Step(w, a), Idle(|w.pool.idle|), r)
    ensures a.inst == Some(r)
  {
  }

  lemma OriginsDiffer(w: World, a: Act, x: Place, y: Place, r: Ref)
    requires At(Step(w, a), x, r) && At(Step(w, a), y, r) && x != y && !a.Add?
    ensures Origin(w, a, x) != Origin(w, a, y)
  {
  }

  lemma StepKeepsApart(w: World, a: Act)
    requires Apart(w) && (a.Add? && a.inst.Some? ==> !Known(w, a.inst.value))
    ensures Apart(Step(w, a))
  {
    var w' := Step(w, a);
    forall x, y, r | At(w', x, r) && At(w', y, r) ensures x == y {
      if x != y {
        if a.Add? && Added(w.pool, a.inst, a.running).1 {
          var last := Idle(|w.pool.idle|);
          if x == last || y == last { AddLands(w, a, r); }
          if x != last { MovesOnly(w, a, x, r); }
          if y != last { MovesOnly(w, a, y, r); }
        } else {
          MovesOnly(w, a, x, r);
          MovesOnly(w, a, y, r);
          if !a.Add? { OriginsDiffer(w, a, x, y, r); }
        }
      }
    }
  }

  /** The action is an Add that the pool admits. */
  predicate Admits(w: World, a: Act) {
    a.Add? && Added(w.pool, a.inst, a.running).1
  }

  /** The action ends a reset that failed or left the instance stopped: the instance is evicted. */
  predicate Evicts(w: World, a: Act) {
    a.EndCheckin? && a.t in w.resets && !(a.resetOk && a.running)
  }

  lemma CheckoutKeepsTotal(w: World, lease: string, running: bool)
    ensures Total(Step(w, Checkout(lease, running))) == Total(w)
  {
    if CheckedOut(w.pool, lease, running).1.Some? { MapGrows(w.pool.inUse, lease, w.pool.idle[|w.pool.idle| - 1]); }
  }

  lemma BeginKeepsTotal(w: World, t: Tid, lease: string)
    ensures Total(Step(w, BeginCheckin(t, lease))) == Total(w)
  {
    if t !in w.resets && lease in w.pool.inUse {
      MapShrinks(w.pool.inUse, lease);
      MapGrows(w.resets, t, w.pool.inUse[lease]);
    }
  }

  lemma EndChangesTotal(w: World, a: Act)
    requires a.EndCheckin?
    ensures Total(Step(w, a)) == Total(w) - if Evicts(w, a) then 1 else 0
  {
    if a.t in w.resets { MapShrinks(w.resets, a.t); }
  }

  /** Instances come only by admitted Adds and go only by evictions, one at a time. */
  lemma TotalIsConserved(w: World, a: Act)
    ensures Total(Step(w, a)) == Total(w) + (if Admits(w, a) then 1 else 0) - (if Evicts(w, a) then 1 else 0)
    ensures Step(w, a).pool.capacity == w.pool.capacity
  {
    match a
    case Add(_, _) =>
    case Checkout(lease, running) => CheckoutKeepsTotal(w, lease, running);
    case BeginCheckin(t, lease) => BeginKeepsTotal(w, t, lease);
    case EndCheckin(_, _, _) => EndChangesTotal(w, a);
  }

  function New(capacity: nat): World {
    World(Pool(capacity, [], map[]), map[], 0)
  }

  /** In every interleaving with fresh Adds each instance is in exactly one of idle, one lease and one reset, so no two
      leases share one; and the total stays within the capacity plus the Adds that ran during a reset. */
  lemma {:induction false} NoInstanceIsShared(capacity: nat, acts: seq<Act>)
    requires FreshAdds(New(capacity), acts)
    ensures var w := Exec(New(capacity), acts);
            Apart(w) && w.pool.capacity == capacity && Total(w) <= capacity + w.late
    decreases |acts|
  {
    if acts != [] {
      var init := acts[..|acts| - 1];
      assert forall k :: 0 <= k < |init| ==> acts[..k] == init[..k] && acts[k] == init[k];
      NoInstanceIsShared(capacity, init);
      StepKeepsApart(Exec(New(capacity), init), acts[|acts| - 1]);
      TotalIsConserved(Exec(New(capacity), init), acts[|acts| - 1]);
    }
  }

  // ---- when the capacity holds ----

  /** The instances never outnumber the capacity, at any point of the run. */
  ghost predicate StaysWithin(capacity: nat, acts: seq<Act>) {
    forall k :: 0 <= k <= |acts| ==> Total(Exec(New(capacity), acts[..k])) <= capacity
  }

  /** Every Add that is admitted finds room for the instances being reset as well, which the pool does not look at. */
  ghost predicate RoomyAdds(capacity: nat, acts: seq<Act>) {
    forall k :: 0 <= k < |acts| && Admits(Exec(New(capacity), acts[..k]), acts[k]) ==>
      Total(Exec(New(capacity), acts[..k])) < capacity
  }

  lemma ExecNext(w: World, acts: seq<Act>, k: nat)
    requires k < |acts|
    ensures Exec(w, acts[..k + 1]) == Step(Exec(w, acts[..k]), acts[k])
  {
    assert acts[..k + 1][..k] == acts[..k];
  }

  lemma {:induction false} RoomyStaysWithin(capacity: nat, acts: seq<Act>, k: nat)
    requires RoomyAdds(capacity, acts) && k <= |acts|
    ensures Total(Exec(New(capacity), acts[..k])) <= capacity
    decreases k
  {
    if k > 0 {
      RoomyStaysWithin(capacity, acts, k - 1);
      ExecNext(New(capacity), acts, k - 1);
      TotalIsConserved(Exec(New(capacity), acts[..k - 1]), acts[k - 1]);
    }
  }

  /** Over whole runs: the pool stays within its capacity exactly when every admitted Add found room counting resets. */
  lemma StaysWithinWhen(capacity: nat, acts: seq<Act>)
    ensures StaysWithin(capacity, acts) <==> RoomyAdds(capacity, acts)
  {
    if RoomyAdds(capacity, acts) {
      forall k | 0 <= k <= |acts| ensures Total(Exec(New(capacity), acts[..k])) <= capacity {
        RoomyStaysWithin(capacity, acts, k);
      }
    }
    if StaysWithin(capacity, acts) {
      forall k | 0 <= k < |acts| && Admits(Exec(New(capacity), acts[..k]), acts[k])
        ensures Total(Exec(New(capacity), acts[..k])) < capacity
      {
        ExecNext(New(capacity), acts, k);
        TotalIsConserved(Exec(New(capacity), acts[..k]), acts[k]);
      }
    }
  }

  lemma {:induction false} LateOnlyGrows(capacity: nat, acts: seq<Act>, k: nat)
    requires k <= |acts|
    ensures Exec(New(capacity), acts[..k]).late <= Exec(New(capacity), acts).late
    ensures Total(Exec(New(capacity), acts[..k])) <= capacity + Exec(New(capacity), acts[..k]).late
    ensures Exec(New(capacity), acts).pool.capacity == capacity
    decreases |acts|
  {
    if acts != [] {
      var init := acts[..|acts| - 1];
      var w := Exec(New(capacity), init);
      LateOnlyGrows(capacity, init, if k < |acts| then k else |init|);
      if k == |acts| {
        assert acts[..k] == acts && init[..|init|] == init;
        TotalIsConserved(w, acts[|acts| - 1]);
      } else {
        assert init[..k] == acts[..k];
      }
    }
  }

  /** A run in which no Add was admitted during a reset stays within the capacity. */
  lemma NoLateAddStaysWithin(capacity: nat, acts: seq<Act>)
    requires Exec(New(capacity), acts).late == 0
    ensures StaysWithin(capacity, acts)
  {
    forall k | 0 <= k <= |acts| ensures Total(Exec(New(capacity), acts[..k])) <= capacity {
      LateOnlyGrows(capacity, acts, k);
    }
  }

  // ---- the bound is reached ----

  /** Nothing is leased, k instances are idle, the threads below m reset one each, and the instances are below
      `bound`. */
  ghost predicate Stage(w: World, capacity: nat, k: nat, m: nat, bound: nat, late: nat) {
    && w.pool.capacity == capacity && w.pool.inUse == map[] && |w.pool.idle| == k && w.late == late
    && |w.resets| == m && (forall t: Tid :: t in w.resets <==> t < m)
    && (forall x :: x in w.pool.idle ==> x < bound) && (forall t :: t in w.resets ==> w.resets[t] < bound)
  }

  /** The run so far is one of fresh Adds and has come to this stage. */
  ghost predicate Staged(acts: seq<Act>, capacity: nat, k: nat, m: nat, bound: nat, late: nat) {
    FreshAdds(New(capacity), acts) && Stage(Exec(New(capacity), acts), capacity, k, m, bound, late)
  }

  lemma FreshAddsExtend(w: World, acts: seq<Act>, a: Act)
    requires FreshAdds(w, acts) && (a.Add? && a.inst.Some? ==> !Known(Exec(w, acts), a.inst.value))
    ensures FreshAdds(w, acts + [a]) && Exec(w, acts + [a]) == Step(Exec(w, acts), a)
  {
    var more := acts + [a];
    assert more[..|acts|] == acts;
    assert forall k :: 0 <= k < |acts| ==> more[..k] == acts[..k] && more[k] == acts[k];
  }

  lemma BoundIsUnknown(w: World, capacity: nat, k: nat, m: nat, bound: nat, late: nat)
    requires Stage(w, capacity, k, m, bound, late)
    ensures !Known(w, bound)
  {
    forall place ensures !At(w, place, bound) {
      if place.Idle? && 0 <= place.k < k { assert w.pool.idle[place.k] in w.pool.idle; }
    }
  }

  lemma AddOne(acts: seq<Act>, capacity: nat, k: nat, m: nat, bound: nat, late: nat)
    requires Staged(acts, capacity, k, m, bound, late) && k < capacity
    ensures Staged(acts + [Add(Some(bound), true)], capacity, k + 1, m, bound + 1, late + if m > 0 then 1 else 0)
  {
    BoundIsUnknown(Exec(New(capacity), acts), capacity, k, m, bound, late);
    FreshAddsExtend(New(capacity), acts, Add(Some(bound), true));
    if m > 0 { assert 0 in Exec(New(capacity), acts).resets; }
  }

  /** The world after the last idle instance is leased and its check-in by thread m begins. */
  function WithReset(w: World, m: Tid): World
    requires w.pool.idle != []
  {
    var last := |w.pool.idle| - 1;
    w.(pool := w.pool.(idle := w.pool.idle[..last]), resets := w.resets[m := w.pool.idle[last]])
  }

  lemma LeaseAndReset(w: World, m: Tid)
    requires w.pool.inUse == map[] && w.pool.idle != [] && m !in w.resets
    ensures Step(Step(w, Checkout("x", true)), BeginCheckin(m, "x")) == WithReset(w, m)
  {
    var w1 := Step(w, Checkout("x", true));
    assert w1.pool.inUse == map["x" := w.pool.idle[|w.pool.idle| - 1]];
    assert w1.pool.inUse - {"x"} == map[];
  }

  lemma StageResets(w: World, capacity: nat, k: nat, m: nat, bound: nat, late: nat)
    requires Stage(w, capacity, k, m, bound, late) && k > 0
    ensures Stage(WithReset(w, m), capacity, k - 1, m + 1, bound, late)
  {
    var top := w.pool.idle[k - 1];
    assert top in w.pool.idle;
    MapGrows(w.resets, m, top);
    var w' := WithReset(w, m);
    forall t: Tid ensures t in w'.resets <==> t < m + 1 { assert t in w.resets <==> t < m; }
    forall x | x in w'.pool.idle ensures x < bound { assert x in w.pool.idle; }
    forall t | t in w'.resets ensures w'.resets[t] < bound { assert t != m ==> t in w.resets; }
  }

  lemma ResetOne(acts: seq<Act>, capacity: nat, k: nat, m: nat, bound: nat, late: nat)
    requires Staged(acts, capacity, k, m, bound, late) && k > 0
    ensures Staged(acts + [Checkout("x", true)] + [BeginCheckin(m, "x")], capacity, k - 1, m + 1, bound, late)
  {
    var w := Exec(New(capacity), acts);
    FreshAddsExtend(New(capacity), acts, Checkout("x", true));
    FreshAddsExtend(New(capacity), acts + [Checkout("x", true)], BeginCheckin(m, "x"));
    LeaseAndReset(w, m);
    StageResets(w, capacity, k, m, bound, late);
  }

  lemma FinishOne(acts: seq<Act>, capacity: nat, k: nat, m: nat, bound: nat, late: nat)
    requires Staged(acts, capacity, k, m, bound, late) && m > 0
    ensures Staged(acts + [EndCheckin(m - 1, true, true)], capacity, k + 1, m - 1, bound, late)
  {
    FreshAddsExtend(New(capacity), acts, EndCheckin(m - 1, true, true));
    MapShrinks(Exec(New(capacity), acts).resets, m - 1);
  }

  lemma StagedAtFirst(capacity: nat)
    ensures Staged([], capacity, 0, 0, 0, 0)
  {
  }

  lemma {:induction false} FillUp(capacity: nat, k: nat) returns (acts: seq<Act>)
    requires k <= capacity
    ensures Staged(acts, capacity, k, 0, k, 0)
  {
    if k == 0 {
      StagedAtFirst(capacity);
      acts := [];
    } else {
      acts := FillUp(capacity, k - 1);
      AddOne(acts, capacity, k - 1, 0, k - 1, 0);
      acts := acts + [Add(Some(k - 1), true)];
    }
  }

  lemma {:induction false} ResetMany(capacity: nat, m: nat) returns (acts: seq<Act>)
    requires m <= capacity
    ensures Staged(acts, capacity, capacity - m, m, capacity, 0)
    decreases m
  {
    if m == 0 {
      acts := FillUp(capacity, capacity);
    } else {
      acts := ResetMany(capacity, m - 1);
      ResetOne(acts, capacity, capacity - m + 1, m - 1, capacity, 0);
      acts := acts + [Checkout("x", true)] + [BeginCheckin(m - 1, "x")];
    }
  }

  lemma {:induction false} AddDuringResets(capacity: nat, n: nat) returns (acts: seq<Act>)
    requires capacity > 0
    ensures Staged(acts, capacity, 0, capacity + n, capacity + n, n)
    decreases n
  {
    if n == 0 {
      acts := ResetMany(capacity, capacity);
    } else {
      var i := capacity + n - 1;
      acts := AddDuringResets(capacity, n - 1);
      AddOne(acts, capacity, 0, i, i, n - 1);
      acts := acts + [Add(Some(i), true)];
      ResetOne(acts, capacity, 1, i, i + 1, n);
      acts := acts + [Checkout("x", true)] + [BeginCheckin(i, "x")];
    }
  }

  lemma {:induction false} FinishMany(capacity: nat, n: nat, k: nat) returns (acts: seq<Act>)
    requires capacity > 0 && k <= capacity + n
    ensures Staged(acts, capacity, k, capacity + n - k, capacity + n, n)
    decreases k
  {
    if k == 0 {
      acts := AddDuringResets(capacity, n);
    } else {
      acts := FinishMany(capacity, n, k - 1);
      FinishOne(acts, capacity, k - 1, capacity + n - k + 1, capacity + n, n);
      acts := acts + [EndCheckin(capacity + n - k, true, true)];
    }
  }

  /** The bound of NoInstanceIsShared is reached, for every capacity and every number of late Adds: some run of fresh
      Adds ends with that many instances above the capacity, all of them idle and ready to be leased. */
  lemma OverfilledByAnyNumber(capacity: nat, n: nat) returns (acts: seq<Act>)
    requires capacity > 0
    ensures var w := Exec(New(capacity), acts);
            && FreshAdds(New(capacity), acts) && w.late == n
            && |w.pool.idle| == Total(w) == capacity + n
  {
    acts := FinishMany(capacity, n, capacity + n);
  }

  /** The schedule that overfills a pool of capacity 1: add, lease, begin the check-in, add another, finish the
      check-in. */
  lemma CapacityCanBeExceeded(x: Ref, y: Ref, lease: string)
    requires lease != ""
    ensures var w1 := Step(World(Pool(1, [], map[]), map[], 0), Add(Some(x), true));
            var w2 := Step(Step(w1, Checkout(lease, true)), BeginCheckin(0, lease));
            var w3 := Step(Step(w2, Add(Some(y), true)), EndCheckin(0, true, true));
            w3.pool.capacity == 1 && w3.pool.idle == [y, x]
  {
    var w1 := Step(World(Pool(1, [], map[]), map[], 0), Add(Some(x), true));
    assert w1 == World(Pool(1, [x], map[]), map[], 0);
    var w2 := Step(Step(w1, Checkout(lease, true)), BeginCheckin(0, lease));
    assert w2 == World(Pool(1, [], map[]), map[0 := x], 0);
    assert Step(w2, Add(Some(y), true)).pool.idle == [y];
  }
}
