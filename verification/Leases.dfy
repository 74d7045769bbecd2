/** Ownership of one VM's host network resources (internal/core/network/allocation.go). */
module Leases {
  import opened Common
  import opened Addressing
  import opened Ipam

  datatype Cleanup = RemoveTap | RemoveFirewall

  /** What an Allocation owns: its pool numbers, the cleanup steps still owed, and whether it gave the numbers back. */
  datatype Lease = Lease(subnet: nat, cid: nat, cleanup: seq<Cleanup>, released: bool)

  // ---- one backward pass over the cleanup list ----

  /** The steps a pass keeps, in the order it visits them: last first, and only those whose index fails. */
  function Retained<T>(steps: seq<T>, fails: set<nat>): (r: seq<T>) {
    if steps == [] then []
    else
      var j := |steps| - 1;
      (if j in fails then [steps[j]] else []) + Retained(steps[..j], fails)
  }

  /** The failing steps in the order they were recorded. */
  function FailedSteps<T>(steps: seq<T>, fails: set<nat>): (r: seq<T>) {
    if steps == [] then []
    else
      var j := |steps| - 1;
      FailedSteps(steps[..j], fails) + (if j in fails then [steps[j]] else [])
  }

  function Reversed<T>(s: seq<T>): (r: seq<T>) {
    if s == [] then [] else Reversed(s[1..]) + [s[0]]
  }

  lemma {:induction false} ReversedSnoc<T>(s: seq<T>, x: T)
    ensures Reversed(s + [x]) == [x] + Reversed(s)
  {
    if s != [] {
      assert (s + [x])[1..] == s[1..] + [x];
      ReversedSnoc(s[1..], x);
    }
  }

  /** What a pass keeps is the reverse of the failed subsequence. */
  lemma {:induction false} RetainedIsReversedFailures<T>(steps: seq<T>, fails: set<nat>)
    ensures Retained(steps, fails) == Reversed(FailedSteps(steps, fails))
    decreases |steps|
  {
    if steps != [] {
      var j := |steps| - 1;
      RetainedIsReversedFailures(steps[..j], fails);
      var f := FailedSteps(steps[..j], fails);
      if j in fails { ReversedSnoc(f, steps[j]); } else { assert f + [] == f; }
    }
  }

  ghost predicate SomeFails<T>(steps: seq<T>, fails: set<nat>) {
    exists j :: 0 <= j < |steps| && j in fails
  }

  lemma {:induction false} RetainedEmpty<T>(steps: seq<T>, fails: set<nat>)
    ensures Retained(steps, fails) != [] <==> SomeFails(steps, fails)
    decreases |steps|
  {
    if steps != [] {
      var j := |steps| - 1;
      RetainedEmpty(steps[..j], fails);
      if SomeFails(steps, fails) && j !in fails {
        var i :| 0 <= i < |steps| && i in fails;
        assert 0 <= i < |steps[..j]|;
      }
    }
  }

  lemma {:induction false} RetainedAreSteps<T>(steps: seq<T>, fails: set<nat>)
    ensures forall x :: x in Retained(steps, fails) ==> x in steps
    decreases |steps|
  {
    if steps != [] { RetainedAreSteps(steps[..|steps| - 1], fails); }
  }

  /** The last of distinct steps does not occur among what is kept of the others. */
  lemma LastIsNew<T>(steps: seq<T>, fails: set<nat>)
    requires NoDup(steps) && steps != []
    ensures NoDup(steps[..|steps| - 1]) && steps[|steps| - 1] !in Retained(steps[..|steps| - 1], fails)
  {
    RetainedAreSteps(steps[..|steps| - 1], fails);
  }

  lemma {:induction false} RetainedDistinct<T>(steps: seq<T>, fails: set<nat>)
    requires NoDup(steps)
    ensures NoDup(Retained(steps, fails))
    decreases |steps|
  {
    if steps != [] {
      LastIsNew(steps, fails);
      RetainedDistinct(steps[..|steps| - 1], fails);
    }
  }

  lemma {:induction false} RetainedWhenFailed<T>(steps: seq<T>, fails: set<nat>, i: nat)
    requires NoDup(steps) && i < |steps|
    ensures steps[i] in Retained(steps, fails) <==> i in fails
    decreases |steps|
  {
    var j := |steps| - 1;
    LastIsNew(steps, fails);
    if i < j {
      RetainedWhenFailed(steps[..j], fails, i);
      assert steps[..j][i] == steps[i] && steps[i] != steps[j];
    }
  }

  /** Over distinct steps, a step is kept exactly when it failed, and the kept steps stay distinct. */
  lemma RetainedMembers<T>(steps: seq<T>, fails: set<nat>)
    requires NoDup(steps)
    ensures NoDup(Retained(steps, fails))
    ensures forall x :: x in Retained(steps, fails) ==> x in steps
    ensures forall i :: 0 <= i < |steps| ==> (steps[i] in Retained(steps, fails) <==> i in fails)
  {
    RetainedDistinct(steps, fails);
    RetainedAreSteps(steps, fails);
    forall i | 0 <= i < |steps| ensures steps[i] in Retained(steps, fails) <==> i in fails {
      RetainedWhenFailed(steps, fails, i);
    }
  }

  // ---- the operations on a lease ----

  function SetUp(l: Lease, tapOk: bool, firewallOk: bool): (r: (Lease, bool)) {
    if l.released || l.cleanup != [] || !tapOk then (l, false)
    else if !firewallOk then (l.(cleanup := [RemoveTap]), false)
    else (l.(cleanup := [RemoveTap, RemoveFirewall]), true)
  }

  function AfterRelease(l: Lease, fails: set<nat>): (r: Lease) {
    if l.released then l
    else if Retained(l.cleanup, fails) != [] then l.(cleanup := Retained(l.cleanup, fails))
    else l.(cleanup := [], released := true)
  }

  /** The pool after a Release: changed only by the call that gives the lease back. */
  function PoolAfterRelease(p: Pool, l: Lease, fails: set<nat>): (r: Pool) {
    if !l.released && AfterRelease(l, fails).released then Returned(p, GuestText(l.subnet), l.cid) else p
  }

  /** Setup records the removal of exactly what it made: of the TAP when that was made, and of the firewall entries when
      they were too. A call it refuses changes nothing. */
  lemma SetUpRecords(l: Lease, tapOk: bool, firewallOk: bool)
    ensures var (l', ok) := SetUp(l, tapOk, firewallOk);
            && l'.subnet == l.subnet && l'.cid == l.cid && l'.released == l.released
            && (NoDup(l.cleanup) ==> NoDup(l'.cleanup))
            && (l.released || l.cleanup != [] ==> l' == l && !ok)
            && (!l.released && l.cleanup == [] ==>
                  && (ok <==> tapOk && firewallOk)
                  && (RemoveTap in l'.cleanup <==> tapOk)
                  && (RemoveFirewall in l'.cleanup <==> tapOk && firewallOk)
                  && (tapOk ==> l'.cleanup[0] == RemoveTap))
  {
  }

  /** Release gives the lease back exactly when no step fails, and otherwise keeps the failed steps, reversed, so that a
      retry runs them in the order they were recorded. */
  lemma ReleaseOutcome(l: Lease, fails: set<nat>)
    ensures var l' := AfterRelease(l, fails);
            && l'.subnet == l.subnet && l'.cid == l.cid
            && (l.released ==> l' == l)
            && (!l.released ==>
                  && (l'.released <==> !SomeFails(l.cleanup, fails))
                  && l'.cleanup == Reversed(FailedSteps(l.cleanup, fails)))
  {
    RetainedEmpty(l.cleanup, fails);
    RetainedIsReversedFailures(l.cleanup, fails);
  }

  // ---- any history of Release calls ----

  function AfterCalls(l: Lease, calls: seq<set<nat>>): (r: Lease) {
    if calls == [] then l else AfterRelease(AfterCalls(l, calls[..|calls| - 1]), calls[|calls| - 1])
  }

  lemma AfterCallsStep(l: Lease, calls: seq<set<nat>>, k: nat)
    requires k < |calls|
    ensures AfterCalls(l, calls[..k + 1]) == AfterRelease(AfterCalls(l, calls[..k]), calls[k])
  {
    assert calls[..k + 1][..k] == calls[..k];
  }

  /** Call k of the history has no failing step. */
  ghost predicate CleanCall(l: Lease, calls: seq<set<nat>>, k: nat)
    requires k < |calls|
  {
    !SomeFails(AfterCalls(l, calls[..k]).cleanup, calls[k])
  }

  /** The numbers go back in the first call in which no step fails, and in no other. */
  lemma {:induction false} ReturnedInFirstCleanCall(l: Lease, calls: seq<set<nat>>, k: nat)
    requires !l.released && k < |calls|
    ensures (!AfterCalls(l, calls[..k]).released && AfterCalls(l, calls[..k + 1]).released)
            <==> CleanCall(l, calls, k) && forall j :: 0 <= j < k ==> !CleanCall(l, calls, j)
  {
    ReleasedMeansCleanCall(l, calls, k);
    AfterCallsStep(l, calls, k);
    RetainedEmpty(AfterCalls(l, calls[..k]).cleanup, calls[k]);
  }

  lemma {:induction false} ReleasedMeansCleanCall(l: Lease, calls: seq<set<nat>>, k: nat)
    requires !l.released && k <= |calls|
    ensures AfterCalls(l, calls[..k]).released <==> exists j :: 0 <= j < k && CleanCall(l, calls, j)
    decreases k
  {
    if k > 0 {
      ReleasedMeansCleanCall(l, calls, k - 1);
      AfterCallsStep(l, calls, k - 1);
      RetainedEmpty(AfterCalls(l, calls[..k - 1]).cleanup, calls[k - 1]);
      assert !AfterCalls(l, calls[..k - 1]).released ==>
          (CleanCall(l, calls, k - 1) <==> AfterCalls(l, calls[..k]).released);
    }
  }

  lemma {:induction false} CallsShrink(l: Lease, calls: seq<set<nat>>, k: nat, m: nat)
    requires NoDup(l.cleanup) && k <= m <= |calls|
    ensures NoDup(AfterCalls(l, calls[..m]).cleanup)
    ensures forall x :: x in AfterCalls(l, calls[..m]).cleanup ==> x in AfterCalls(l, calls[..k]).cleanup
    decreases m
  {
    if m > 0 {
      CallsShrink(l, calls, if k < m then k else m - 1, m - 1);
      AfterCallsStep(l, calls, m - 1);
      RetainedMembers(AfterCalls(l, calls[..m - 1]).cleanup, calls[m - 1]);
    }
  }

  /** A step that succeeded in some call is never run again, and one that failed is still owed after it. */
  lemma SucceededStepNeverRunsAgain(l: Lease, calls: seq<set<nat>>, k: nat, i: nat, m: nat)
    requires !l.released && NoDup(l.cleanup) && k < m <= |calls|
    requires !AfterCalls(l, calls[..k]).released && i < |AfterCalls(l, calls[..k]).cleanup|
    ensures var x := AfterCalls(l, calls[..k]).cleanup[i];
            && (i !in calls[k] ==> x !in AfterCalls(l, calls[..m]).cleanup)
            && (i in calls[k] ==> x in AfterCalls(l, calls[..k + 1]).cleanup)
  {
    CallsShrink(l, calls, k, k);
    CallsShrink(l, calls, k + 1, m);
    AfterCallsStep(l, calls, k);
    RetainedMembers(AfterCalls(l, calls[..k]).cleanup, calls[k]);
  }

  // ---- the object ----

  class Allocation {
    const pool: IPAMPool
    const guestIP: string
    const cid: nat
    ghost const subnet: nat
    var cleanup: seq<Cleanup>
    var released: bool

    ghost predicate Valid() {
      guestIP == GuestText(subnet)
    }

    ghost function View(): Lease
      reads this
    {
      Lease(subnet, cid, cleanup, released)
    }

    constructor (pool: IPAMPool, subnet: nat, cid: nat)
      ensures Valid() && this.pool == pool
      ensures View() == Lease(subnet, cid, [], false)
    {
      this.pool, this.guestIP, this.cid := pool, GuestText(subnet), cid;
      this.subnet := subnet;
      cleanup, released := [], false;
    }

    /** Acquire: a new unreleased lease on a fresh pair, or null and an unchanged pool. */
    static method Acquire(pool: IPAMPool?) returns (a: Allocation?)
      modifies pool
      ensures pool == null ==> a == null
      ensures pool != null ==>
                var (q, g) := Allocated(old(pool.View()));
                && pool.View() == q
                && (a != null <==> g.Granted?)
                && (a != null ==> fresh(a) && a.Valid() && a.pool == pool
                                  && a.View() == Lease(g.subnet, g.cid, [], false))
    {
      if pool == null { return null; }
      var g := pool.Allocate();
      if !g.Granted? { return null; }
      a := new Allocation(pool, g.subnet, g.cid);
    }

    method Setup(tapOk: bool, firewallOk: bool) returns (ok: bool)
      modifies this
      ensures (View(), ok) == SetUp(old(View()), tapOk, firewallOk)
    {
      if released { return false; }
      if |cleanup| != 0 { return false; }
      if !tapOk { return false; }
      cleanup := cleanup + [RemoveTap];
      assert cleanup == [RemoveTap];
      if !firewallOk { return false; }
      cleanup := cleanup + [RemoveFirewall];
      assert cleanup == [RemoveTap, RemoveFirewall];
      return true;
    }

    /** Release: `fails` names the cleanup steps, by index, whose host call fails this time. */
    method Release(fails: set<nat>) returns (ok: bool)
      requires Valid()
      modifies this, pool
      ensures View() == AfterRelease(old(View()), fails)
      ensures pool.View() == PoolAfterRelease(old(pool.View()), old(View()), fails)
      ensures ok <==> released
    {
      if released { return true; }
      var remaining: seq<Cleanup> := [];
      var errs := 0;
      var j := |cleanup|;
      assert cleanup[..j] == cleanup;
      while j > 0
        invariant 0 <= j <= |cleanup|
        invariant remaining + Retained(cleanup[..j], fails) == Retained(cleanup, fails)
        invariant errs == |remaining|
        invariant cleanup == old(cleanup) && !released && pool.View() == old(pool.View())
      {
        j := j - 1;
        assert cleanup[..j + 1][..j] == cleanup[..j];
        if j in fails {
          errs := errs + 1;
          remaining := remaining + [cleanup[j]];
        }
      }
      cleanup := remaining;
      if errs != 0 { return false; }
      pool.Release(guestIP, cid);
      released := true;
      return true;
    }
  }
}
