/** Each step of the VM protocol keeps the invariant. */
module VmSteps {
  import opened Common
  import opened Addressing
  import opened Ipam
  import opened Leases
  import opened Lifecycle
  import opened Manager
  import opened VmProtocol
  import opened VmInvariant

  function MidOpt(pc: Option<Pc>): Option<(Ref, State)> {
    match pc case Some(p) => MidOf(p) case None => None
  }

  function HeldOpt(pc: Option<Pc>): Option<Ref> {
    match pc case Some(p) => HeldOf(p) case None => None
  }

  predicate TokenOpt(pc: Option<Pc>) {
    pc.Some? && TokenOf(pc.value)
  }

  predicate ScanOpt(pc: Option<Pc>) {
    pc.Some? && pc.value.RcScan?
  }

  function At(w: World, t: Tid): Option<Pc> {
    if t in w.threads then Some(w.threads[t]) else None
  }

  // ---- parts that only look at threads ----

  lemma PutThreads(w: World, t: Tid, pc: Option<Pc>)
    ensures forall u: Tid :: At(Put(w, t, pc), u) == if u == t then pc else At(w, u)
    ensures forall u: Tid :: Mid(Put(w, t, pc), u) == if u == t then MidOpt(pc) else Mid(w, u)
    ensures forall u: Tid :: Held(Put(w, t, pc), u) == if u == t then HeldOpt(pc) else Held(w, u)
  {
  }

  lemma CardMoves(before: set<Tid>, after: set<Tid>, t: Tid)
    requires forall u: Tid :: u != t ==> (u in before <==> u in after)
    ensures |after| == |before| + (if t in after then 1 else 0) - (if t in before then 1 else 0)
  {
    var others := before - {t};
    assert after - {t} == others;
    if t in before { assert before == others + {t}; } else { assert before == others; }
    if t in after { assert after == others + {t}; } else { assert after == others; }
  }

  lemma TokenMoves(w: World, t: Tid, pc: Option<Pc>)
    ensures |Holders(Put(w, t, pc))| ==
            |Holders(w)| + (if TokenOpt(pc) then 1 else 0) - (if TokenOpt(At(w, t)) then 1 else 0)
  {
    CardMoves(Holders(w), Holders(Put(w, t, pc)), t);
  }

  lemma LockMoves(w: World, t: Tid, pc: Option<Pc>)
    requires LockInv(w) && ScanOpt(pc) == ScanOpt(At(w, t))
    ensures LockInv(Put(w, t, pc))
  {
    PutThreads(w, t, pc);
    var w' := Put(w, t, pc);
    forall u: Tid ensures w'.lock == Some(u) <==> u in w'.threads && w'.threads[u].RcScan? {
      assert ScanOpt(At(w', u)) == ScanOpt(At(w, u));
      assert ScanOpt(At(w, u)) <==> w.lock == Some(u);
    }
  }

  /** PcOk looks only at the instances, the leases and the table. */
  lemma PcOkSame(w: World, w': World, pc: Pc)
    requires w.insts == w'.insts && w.leases == w'.leases && w.table == w'.table
    ensures PcOk(w, pc) == PcOk(w', pc)
  {
  }

  // ---- a thread moves and nothing else changes ----

  lemma PcMoves(w: World, t: Tid, pc: Option<Pc>)
    requires PcInv(w) && (pc.Some? ==> PcOk(w, pc.value))
    ensures PcInv(Put(w, t, pc))
  {
    var w' := Put(w, t, pc);
    forall u: Tid | u in w'.threads ensures PcOk(w', w'.threads[u]) {
      PcOkSame(w, w', w'.threads[u]);
    }
  }

  lemma ThreadMoves(w: World, t: Tid, pc: Option<Pc>)
    requires Inv(w)
    requires MidOpt(pc) == Mid(w, t) && HeldOpt(pc) == Held(w, t)
    requires TokenOpt(pc) == TokenOpt(At(w, t)) && ScanOpt(pc) == ScanOpt(At(w, t))
    requires pc.Some? ==> PcOk(w, pc.value)
    ensures Inv(Put(w, t, pc))
  {
    var w' := Put(w, t, pc);
    PutThreads(w, t, pc);
    TokenMoves(w, t, pc);
    LockMoves(w, t, pc);
    PcMoves(w, t, pc);
    OwnerSame(w, w');
    MidSame(w, w');
    TableSame(w, w');
  }

  lemma TableSame(w: World, w': World)
    requires TableInv(w) && w'.maxVMs == w.maxVMs && w'.table == w.table && w'.gone == w.gone && w'.insts == w.insts
    ensures TableInv(w')
  {
    forall r: Ref | r in w'.insts ensures r in w'.gone <==> !InTable(w', r) {
      assert InTable(w', r) == InTable(w, r);
    }
  }

  lemma OwnerSame(w: World, w': World)
    requires OwnerInv(w) && w'.leases == w.leases && w'.insts.Keys == w.insts.Keys
    requires forall r: Ref :: r in w.insts ==> w'.insts[r].net == w.insts[r].net
    requires forall u: Tid :: Held(w', u) == Held(w, u)
    ensures OwnerInv(w')
  {
    forall a: Ref | Live(w', a) ensures OwnedByThread(w', a) || OwnedByInst(w', a) {
      assert Live(w, a);
      if OwnedByThread(w, a) {
        var u: Tid :| Held(w, u) == Some(a);
        assert Held(w', u) == Some(a);
      } else {
        var r: Ref :| r in w.insts && w.insts[r].net == a;
        assert r in w'.insts && w'.insts[r].net == a;
      }
    }
  }

  lemma MidSame(w: World, w': World)
    requires MidInv(w) && w'.insts == w.insts
    requires forall u: Tid :: Mid(w', u) == Mid(w, u)
    ensures MidInv(w')
  {
    forall r: Ref | r in w'.insts && Transitional(w'.insts[r].vm.state)
      ensures exists u: Tid :: Mid(w', u) == Some((r, w'.insts[r].vm.state))
    {
      var u: Tid :| Mid(w, u) == Some((r, w.insts[r].vm.state));
      assert Mid(w', u) == Some((r, w'.insts[r].vm.state));
    }
  }

  // ---- a section under the instance lock: one vm changes and the thread moves ----

  function VmMoved(w: World, t: Tid, r: Ref, v: Vm, pc: Option<Pc>): World
    requires r in w.insts
  {
    Put(SetVm(w, r, v), t, pc)
  }

  /** No thread but t is in a middle section of r. */
  ghost predicate Exclusive(w: World, t: Tid, r: Ref) {
    && r in w.insts
    && (Mid(w, t).Some? ==> Mid(w, t).value.0 == r)
    && (Mid(w, t).None? ==> !Transitional(w.insts[r].vm.state))
  }

  lemma ExclusiveMeans(w: World, t: Tid, r: Ref)
    requires MidInv(w) && Exclusive(w, t, r)
    ensures forall u: Tid :: u != t && Mid(w, u).Some? ==> Mid(w, u).value.0 != r
  {
    forall u: Tid | u != t && Mid(w, u).Some? ensures Mid(w, u).value.0 != r {
      MidIsTransitional(w, u);
    }
  }

  lemma MidIsTransitional(w: World, u: Tid)
    requires Mid(w, u).Some?
    ensures Transitional(Mid(w, u).value.1)
  {
  }

  lemma MidVm(w: World, t: Tid, r: Ref, v: Vm, pc: Option<Pc>)
    requires MidInv(w) && Exclusive(w, t, r)
    requires MidOpt(pc) == if Transitional(v.state) then Some((r, v.state)) else None
    ensures MidInv(VmMoved(w, t, r, v, pc))
  {
    var w' := VmMoved(w, t, r, v, pc);
    PutThreads(SetVm(w, r, v), t, pc);
    ExclusiveMeans(w, t, r);
    assert forall u: Tid :: u != t ==> Mid(w', u) == Mid(w, u);
    assert Mid(w', t) == MidOpt(pc);
    forall q: Ref | q in w'.insts && Transitional(w'.insts[q].vm.state)
      ensures exists u: Tid :: Mid(w', u) == Some((q, w'.insts[q].vm.state))
    {
      if q == r {
        assert Mid(w', t) == Some((q, w'.insts[q].vm.state));
      } else {
        var u: Tid :| Mid(w, u) == Some((q, w.insts[q].vm.state));
        assert Mid(w', u) == Some((q, w'.insts[q].vm.state));
      }
    }
  }

  lemma PcOkVm(w: World, r: Ref, v: Vm, pc: Pc)
    requires r in w.insts && PcOk(w, pc) && w.insts[r].vm.state != Stopped
    requires MidOf(pc).Some? ==> MidOf(pc).value.0 != r
    ensures PcOk(SetVm(w, r, v), pc)
  {
  }

  lemma PcVm(w: World, t: Tid, r: Ref, v: Vm, pc: Option<Pc>)
    requires PcInv(w) && MidInv(w) && Exclusive(w, t, r) && w.insts[r].vm.state != Stopped
    requires pc.Some? ==> PcOk(SetVm(w, r, v), pc.value)
    ensures PcInv(VmMoved(w, t, r, v, pc))
  {
    var w' := VmMoved(w, t, r, v, pc);
    ExclusiveMeans(w, t, r);
    forall u: Tid | u in w'.threads ensures PcOk(w', w'.threads[u]) {
      PcOkSame(SetVm(w, r, v), w', w'.threads[u]);
      if u != t {
        assert Mid(w, u) == MidOf(w.threads[u]);
        PcOkVm(w, r, v, w.threads[u]);
      }
    }
  }

  lemma InTableVm(w: World, r: Ref, v: Vm, q: Ref)
    requires r in w.insts && q in w.insts
    ensures InTable(SetVm(w, r, v), q) == InTable(w, q)
  {
  }

  lemma TableVm(w: World, t: Tid, r: Ref, v: Vm, pc: Option<Pc>)
    requires TableInv(w) && r in w.insts && w.insts[r].vm.state != Stopped
    ensures TableInv(VmMoved(w, t, r, v, pc))
  {
    var w1 := SetVm(w, r, v);
    forall q: Ref | q in w1.insts ensures q in w1.gone <==> !InTable(w1, q) {
      InTableVm(w, r, v, q);
    }
    assert TableInv(w1);
    TableSame(w1, VmMoved(w, t, r, v, pc));
  }

  lemma OwnerVm(w: World, t: Tid, r: Ref, v: Vm, pc: Option<Pc>)
    requires OwnerInv(w) && r in w.insts && HeldOpt(pc) == Held(w, t)
    ensures OwnerInv(VmMoved(w, t, r, v, pc))
  {
    PutThreads(SetVm(w, r, v), t, pc);
    OwnerSame(w, VmMoved(w, t, r, v, pc));
  }

  lemma ThreadPartsVm(w: World, t: Tid, r: Ref, v: Vm, pc: Option<Pc>)
    requires TokenInv(w) && LockInv(w) && r in w.insts
    requires TokenOpt(pc) == TokenOpt(At(w, t)) && ScanOpt(pc) == ScanOpt(At(w, t))
    ensures TokenInv(VmMoved(w, t, r, v, pc)) && LockInv(VmMoved(w, t, r, v, pc))
  {
    var w1 := SetVm(w, r, v);
    assert Holders(w1) == Holders(w);
    assert At(w1, t) == At(w, t);
    TokenMoves(w1, t, pc);
    LockMoves(w1, t, pc);
  }

  /** A step under the instance lock keeps the invariant when no other thread is in a middle section of the instance. */
  lemma VmMoves(w: World, t: Tid, r: Ref, v: Vm, pc: Option<Pc>)
    requires Inv(w) && Exclusive(w, t, r) && w.insts[r].vm.state != Stopped
    requires HeldOpt(pc) == Held(w, t) && ScanOpt(pc) == ScanOpt(At(w, t)) && TokenOpt(pc) == TokenOpt(At(w, t))
    requires MidOpt(pc) == if Transitional(v.state) then Some((r, v.state)) else None
    requires Shape(v, w.leases[w.insts[r].net])
    requires pc.Some? ==> PcOk(SetVm(w, r, v), pc.value)
    ensures Inv(VmMoved(w, t, r, v, pc))
  {
    ThreadPartsVm(w, t, r, v, pc);
    PcVm(w, t, r, v, pc);
    OwnerVm(w, t, r, v, pc);
    MidVm(w, t, r, v, pc);
    TableVm(w, t, r, v, pc);
  }

  // ---- a section under the allocation lock: one lease changes, the pool with it, and the thread moves ----

  function LeaseMoved(w: World, t: Tid, a: Ref, l: Lease, p: Pool, pc: Option<Pc>): World {
    Put(w.(pool := p, leases := w.leases[a := l]), t, pc)
  }

  /** l may replace the lease at a: same numbers, never taken back once returned, and the pool gets them when it is. */
  ghost predicate LeaseStep(w: World, a: Ref, l: Lease, p: Pool) {
    && a in w.leases
    && l.subnet == w.leases[a].subnet && l.cid == w.leases[a].cid
    && NoDup(l.cleanup) && (l.released ==> l.cleanup == [])
    && (w.leases[a].released ==> l.released)
    && p == if !w.leases[a].released && l.released then Returned(w.pool, GuestText(l.subnet), l.cid) else w.pool
  }

  lemma BookedKept(subnets: set<nat>, cids: set<nat>, ls: map<Ref, Lease>, a: Ref, l: Lease)
    requires Booked(subnets, cids, ls) && a in ls && l.released == ls[a].released
    requires l.subnet == ls[a].subnet && l.cid == ls[a].cid && NoDup(l.cleanup) && (l.released ==> l.cleanup == [])
    ensures Booked(subnets, cids, ls[a := l])
  {
    var ls' := ls[a := l];
    assert forall b: Ref :: LiveIn(ls', b) == LiveIn(ls, b);
    assert forall b: Ref :: b in ls ==> ls'[b].subnet == ls[b].subnet && ls'[b].cid == ls[b].cid;
    forall s | s in subnets ensures exists b: Ref :: LiveIn(ls', b) && ls'[b].subnet == s {
      var b: Ref :| LiveIn(ls, b) && ls[b].subnet == s;
      assert LiveIn(ls', b);
    }
    forall c | c in cids ensures exists b: Ref :: LiveIn(ls', b) && ls'[b].cid == c {
      var b: Ref :| LiveIn(ls, b) && ls[b].cid == c;
      assert LiveIn(ls', b);
    }
  }

  lemma ExclusivelyReturned(subnets: set<nat>, cids: set<nat>, ls: map<Ref, Lease>, a: Ref, l: Lease)
    requires Exclusively(subnets, cids, ls) && LiveIn(ls, a) && l.released && l.cleanup == []
    requires l.subnet == ls[a].subnet && l.cid == ls[a].cid
    ensures Exclusively(subnets - {l.subnet}, cids - {l.cid}, ls[a := l])
  {
    var ls' := ls[a := l];
    assert forall b: Ref :: LiveIn(ls', b) == (b != a && LiveIn(ls, b));
  }

  lemma CoveredReturned(subnets: set<nat>, cids: set<nat>, ls: map<Ref, Lease>, a: Ref, l: Lease)
    requires Covered(subnets, cids, ls) && LiveIn(ls, a) && l.released
    requires l.subnet == ls[a].subnet && l.cid == ls[a].cid
    ensures Covered(subnets - {l.subnet}, cids - {l.cid}, ls[a := l])
  {
    var ls' := ls[a := l];
    assert forall b: Ref :: LiveIn(ls', b) == (b != a && LiveIn(ls, b));
    forall s | s in subnets - {l.subnet} ensures exists b: Ref :: LiveIn(ls', b) && ls'[b].subnet == s {
      var b: Ref :| LiveIn(ls, b) && ls[b].subnet == s;
      assert LiveIn(ls', b);
    }
    forall c | c in cids - {l.cid} ensures exists b: Ref :: LiveIn(ls', b) && ls'[b].cid == c {
      var b: Ref :| LiveIn(ls, b) && ls[b].cid == c;
      assert LiveIn(ls', b);
    }
  }

  lemma BookedReturned(subnets: set<nat>, cids: set<nat>, ls: map<Ref, Lease>, a: Ref, l: Lease)
    requires Booked(subnets, cids, ls) && LiveIn(ls, a) && l.released && l.cleanup == []
    requires l.subnet == ls[a].subnet && l.cid == ls[a].cid
    ensures Booked(subnets - {l.subnet}, cids - {l.cid}, ls[a := l])
  {
    ExclusivelyReturned(subnets, cids, ls, a, l);
    CoveredReturned(subnets, cids, ls, a, l);
  }

  lemma PoolLease(w: World, t: Tid, a: Ref, l: Lease, p: Pool, pc: Option<Pc>)
    requires PoolInv(w) && LeaseStep(w, a, l, p)
    ensures PoolInv(LeaseMoved(w, t, a, l, p, pc))
  {
    if !w.leases[a].released && l.released {
      assert LiveIn(w.leases, a);
      BookedReturned(w.pool.usedSubnets, w.pool.usedCIDs, w.leases, a, l);
      ReturnIsExact(w.pool, l.subnet, l.cid);
    } else {
      BookedKept(w.pool.usedSubnets, w.pool.usedCIDs, w.leases, a, l);
    }
  }

  lemma OwnerLease(w: World, t: Tid, a: Ref, l: Lease, p: Pool, pc: Option<Pc>)
    requires OwnerInv(w) && LeaseStep(w, a, l, p)
    requires || (OwnedByInst(w, a) && HeldOpt(pc) == Held(w, t))
             || (Held(w, t) == Some(a) && l.released && HeldOpt(pc).None?)
    ensures OwnerInv(LeaseMoved(w, t, a, l, p, pc))
  {
    var w' := LeaseMoved(w, t, a, l, p, pc);
    PutThreads(w.(pool := p, leases := w.leases[a := l]), t, pc);
    assert forall u: Tid :: Held(w', u) == if u == t then HeldOpt(pc) else Held(w, u);
    forall u: Tid | Held(w', u).Some?
      ensures Live(w', Held(w', u).value) && w'.leases[Held(w', u).value].cleanup == []
    {
      assert Held(w, u) == Held(w', u);
      assert Held(w, u) != Some(a);
    }
    forall b: Ref | Live(w', b) ensures OwnedByThread(w', b) || OwnedByInst(w', b) {
      assert Live(w, b);
      if OwnedByThread(w, b) {
        var u: Tid :| Held(w, u) == Some(b);
        assert Held(w', u) == Some(b);
      } else {
        var r: Ref :| r in w.insts && w.insts[r].net == b;
        assert r in w'.insts && w'.insts[r].net == b;
      }
    }
  }

  lemma PcOkLease(w: World, a: Ref, l: Lease, p: Pool, pc: Pc)
    requires PcOk(w, pc)
    requires MidOf(pc).Some? && MidOf(pc).value.0 in w.insts ==> w.insts[MidOf(pc).value.0].net != a
    ensures PcOk(w.(pool := p, leases := w.leases[a := l]), pc)
  {
  }

  lemma PcLease(w: World, t: Tid, a: Ref, l: Lease, p: Pool, pc: Option<Pc>)
    requires PcInv(w)
    requires forall u: Tid :: u != t && Mid(w, u).Some? && Mid(w, u).value.0 in w.insts ==>
               w.insts[Mid(w, u).value.0].net != a
    requires pc.Some? ==> PcOk(w.(pool := p, leases := w.leases[a := l]), pc.value)
    ensures PcInv(LeaseMoved(w, t, a, l, p, pc))
  {
    var w1, w' := w.(pool := p, leases := w.leases[a := l]), LeaseMoved(w, t, a, l, p, pc);
    forall u: Tid | u in w'.threads ensures PcOk(w', w'.threads[u]) {
      PcOkSame(w1, w', w'.threads[u]);
      if u != t {
        assert Mid(w, u) == MidOf(w.threads[u]);
        PcOkLease(w, a, l, p, w.threads[u]);
      }
    }
  }

  lemma RestLease(w: World, t: Tid, a: Ref, l: Lease, p: Pool, pc: Option<Pc>)
    requires TokenInv(w) && LockInv(w) && MidInv(w) && TableInv(w) && MidOpt(pc) == Mid(w, t)
    requires TokenOpt(pc) == TokenOpt(At(w, t)) && ScanOpt(pc) == ScanOpt(At(w, t))
    ensures var w' := LeaseMoved(w, t, a, l, p, pc); TokenInv(w') && LockInv(w') && MidInv(w') && TableInv(w')
  {
    var w1, w' := w.(pool := p, leases := w.leases[a := l]), LeaseMoved(w, t, a, l, p, pc);
    assert Holders(w1) == Holders(w);
    assert At(w1, t) == At(w, t);
    TokenMoves(w1, t, pc);
    LockMoves(w1, t, pc);
    PutThreads(w1, t, pc);
    MidSame(w, w');
    TableSame(w, w');
  }

  lemma ShapeLease(w: World, t: Tid, a: Ref, l: Lease, p: Pool, pc: Option<Pc>)
    requires ShapeInv(w) && forall r: Ref :: r in w.insts && w.insts[r].net == a ==> Shape(w.insts[r].vm, l)
    ensures ShapeInv(LeaseMoved(w, t, a, l, p, pc))
  {
  }

  /** The middle section of r changes r's lease. */
  lemma NetMoves(w: World, t: Tid, r: Ref, l: Lease, p: Pool, pc: Option<Pc>)
    requires Inv(w) && Mid(w, t).Some? && Mid(w, t).value.0 == r && MidOpt(pc) == Mid(w, t)
    requires HeldOpt(pc) == Held(w, t) && ScanOpt(pc) == ScanOpt(At(w, t)) && TokenOpt(pc) == TokenOpt(At(w, t))
    requires r in w.insts && LeaseStep(w, w.insts[r].net, l, p) && Shape(w.insts[r].vm, l)
    requires pc.Some? ==> PcOk(w.(pool := p, leases := w.leases[w.insts[r].net := l]), pc.value)
    ensures Inv(LeaseMoved(w, t, w.insts[r].net, l, p, pc))
  {
    var a := w.insts[r].net;
    OthersElsewhere(w, t, r);
    PoolLease(w, t, a, l, p, pc);
    OwnerLease(w, t, a, l, p, pc);
    PcLease(w, t, a, l, p, pc);
    RestLease(w, t, a, l, p, pc);
    ShapeLease(w, t, a, l, p, pc);
  }

  lemma OthersElsewhere(w: World, t: Tid, r: Ref)
    requires OwnerInv(w) && MidInv(w) && r in w.insts && Mid(w, t).Some? && Mid(w, t).value.0 == r
    ensures OwnedByInst(w, w.insts[r].net)
    ensures forall u: Tid :: u != t && Mid(w, u).Some? && Mid(w, u).value.0 in w.insts ==>
              w.insts[Mid(w, u).value.0].net != w.insts[r].net
    ensures forall q: Ref :: q in w.insts && w.insts[q].net == w.insts[r].net ==> q == r
  {
  }

  /** A CreateVM that lost the recheck gives back the lease it holds. */
  lemma UndoMoves(w: World, t: Tid, a: Ref, l: Lease, p: Pool, pc: Option<Pc>)
    requires Inv(w) && Held(w, t) == Some(a) && HeldOpt(pc).None? && MidOpt(pc) == Mid(w, t)
    requires ScanOpt(pc) == ScanOpt(At(w, t)) && TokenOpt(pc) == TokenOpt(At(w, t))
    requires LeaseStep(w, a, l, p) && l.released
    requires pc.Some? ==> PcOk(w.(pool := p, leases := w.leases[a := l]), pc.value)
    ensures Inv(LeaseMoved(w, t, a, l, p, pc))
  {
    PoolLease(w, t, a, l, p, pc);
    OwnerLease(w, t, a, l, p, pc);
    assert forall r: Ref :: r in w.insts ==> w.insts[r].net != a;
    PcLease(w, t, a, l, p, pc);
    RestLease(w, t, a, l, p, pc);
    ShapeLease(w, t, a, l, p, pc);
  }

  // ---- Acquire: a new lease, held by its thread ----

  lemma CoveredAdded(subnets: set<nat>, cids: set<nat>, ls: map<Ref, Lease>, a: Ref, l: Lease)
    requires Covered(subnets, cids, ls) && a !in ls && !l.released
    ensures Covered(subnets + {l.subnet}, cids + {l.cid}, ls[a := l])
  {
    var ls' := ls[a := l];
    assert forall b: Ref :: LiveIn(ls, b) ==> LiveIn(ls', b) && ls'[b] == ls[b];
    assert LiveIn(ls', a);
    forall s | s in subnets ensures exists b: Ref :: LiveIn(ls', b) && ls'[b].subnet == s {
      var b: Ref :| LiveIn(ls, b) && ls[b].subnet == s;
      assert LiveIn(ls', b);
    }
    forall c | c in cids ensures exists b: Ref :: LiveIn(ls', b) && ls'[b].cid == c {
      var b: Ref :| LiveIn(ls, b) && ls[b].cid == c;
      assert LiveIn(ls', b);
    }
  }

  lemma BookedAdded(subnets: set<nat>, cids: set<nat>, ls: map<Ref, Lease>, a: Ref, l: Lease)
    requires Booked(subnets, cids, ls) && a !in ls && !l.released && l.cleanup == []
    requires l.subnet !in subnets && l.cid !in cids
    ensures Booked(subnets + {l.subnet}, cids + {l.cid}, ls[a := l])
  {
    CoveredAdded(subnets, cids, ls, a, l);
    assert forall b: Ref :: LiveIn(ls[a := l], b) == (b == a || LiveIn(ls, b));
  }

  lemma OwnerAcquire(w: World, t: Tid, a: Ref, l: Lease, p: Pool, pc: Option<Pc>)
    requires OwnerInv(w) && a !in w.leases && !l.released && l.cleanup == []
    requires Held(w, t).None? && HeldOpt(pc) == Some(a)
    ensures OwnerInv(LeaseMoved(w, t, a, l, p, pc))
  {
    var w' := LeaseMoved(w, t, a, l, p, pc);
    PutThreads(w.(pool := p, leases := w.leases[a := l]), t, pc);
    assert forall u: Tid :: Held(w', u) == if u == t then Some(a) else Held(w, u);
    assert forall u: Tid :: Held(w, u).Some? ==> Live(w, Held(w, u).value);
    forall b: Ref | Live(w', b) ensures OwnedByThread(w', b) || OwnedByInst(w', b) {
      if b == a {
        assert Held(w', t) == Some(a);
      } else {
        assert Live(w, b);
        if OwnedByThread(w, b) {
          var u: Tid :| Held(w, u) == Some(b);
          assert Held(w', u) == Some(b);
        } else {
          var r: Ref :| r in w.insts && w.insts[r].net == b;
          assert r in w'.insts && w'.insts[r].net == b;
        }
      }
    }
  }

  lemma AcquireMoves(w: World, t: Tid, a: Ref, l: Lease, p: Pool, pc: Option<Pc>)
    requires Inv(w) && a !in w.leases && Held(w, t).None? && HeldOpt(pc) == Some(a) && MidOpt(pc) == Mid(w, t)
    requires ScanOpt(pc) == ScanOpt(At(w, t)) && TokenOpt(pc) == TokenOpt(At(w, t))
    requires !l.released && l.cleanup == [] && Allocated(w.pool) == (p, Granted(l.subnet, l.cid))
    requires pc.Some? ==> PcOk(w.(pool := p, leases := w.leases[a := l]), pc.value)
    ensures Inv(LeaseMoved(w, t, a, l, p, pc))
  {
    AllocateIsFresh(w.pool);
    BookedAdded(w.pool.usedSubnets, w.pool.usedCIDs, w.leases, a, l);
    OwnerAcquire(w, t, a, l, p, pc);
    assert forall r: Ref :: r in w.insts ==> w.insts[r].net in w.leases && w.insts[r].net != a;
    PcLease(w, t, a, l, p, pc);
    RestLease(w, t, a, l, p, pc);
    ShapeLease(w, t, a, l, p, pc);
  }

  // ---- insertion: the held lease becomes a new instance's ----

  function Inserted(w: World, id: string, a: Ref, r: Ref): World {
    w.(insts := w.insts[r := Inst(id, a, Vm(Created, false))], table := w.table[id := r])
  }

  lemma OwnerInsert(w: World, t: Tid, id: string, a: Ref, r: Ref, pc: Option<Pc>)
    requires OwnerInv(w) && r !in w.insts && Held(w, t) == Some(a) && HeldOpt(pc).None?
    ensures OwnerInv(Put(Inserted(w, id, a, r), t, pc))
  {
    var w' := Put(Inserted(w, id, a, r), t, pc);
    PutThreads(Inserted(w, id, a, r), t, pc);
    assert forall u: Tid :: Held(w', u) == if u == t then None else Held(w, u);
    assert Live(w, a);
    forall b: Ref | Live(w', b) ensures OwnedByThread(w', b) || OwnedByInst(w', b) {
      assert Live(w, b);
      if b == a {
        assert r in w'.insts && w'.insts[r].net == b;
      } else if OwnedByThread(w, b) {
        var u: Tid :| Held(w, u) == Some(b);
        assert Held(w', u) == Some(b);
      } else {
        var q: Ref :| q in w.insts && w.insts[q].net == b;
        assert q in w'.insts && w'.insts[q].net == b;
      }
    }
  }

  lemma InTableInsert(w: World, id: string, a: Ref, r: Ref, q: Ref)
    requires q in w.insts && q != r && id !in w.table
    ensures InTable(Inserted(w, id, a, r), q) == InTable(w, q)
  {
  }

  lemma TableInsert(w: World, t: Tid, id: string, a: Ref, r: Ref, pc: Option<Pc>)
    requires TableInv(w) && r !in w.insts && id !in w.table && |w.table| < w.maxVMs && ValidVmId(id)
    ensures TableInv(Put(Inserted(w, id, a, r), t, pc))
  {
    var w1 := Inserted(w, id, a, r);
    MapGrows(w.table, id, r);
    forall q: Ref | q in w1.insts ensures q in w1.gone <==> !InTable(w1, q) {
      if q != r { InTableInsert(w, id, a, r, q); }
    }
    assert TableInv(w1);
    TableSame(w1, Put(w1, t, pc));
  }

  lemma MidInsert(w: World, t: Tid, id: string, a: Ref, r: Ref, pc: Option<Pc>)
    requires MidInv(w) && r !in w.insts && MidOpt(pc) == Mid(w, t)
    ensures MidInv(Put(Inserted(w, id, a, r), t, pc))
  {
    var w' := Put(Inserted(w, id, a, r), t, pc);
    PutThreads(Inserted(w, id, a, r), t, pc);
    assert forall u: Tid :: Mid(w', u) == Mid(w, u);
    forall q: Ref | q in w'.insts && Transitional(w'.insts[q].vm.state)
      ensures exists u: Tid :: Mid(w', u) == Some((q, w'.insts[q].vm.state))
    {
      var u: Tid :| Mid(w, u) == Some((q, w.insts[q].vm.state));
      assert Mid(w', u) == Some((q, w'.insts[q].vm.state));
    }
  }

  lemma PcOkInsert(w: World, id: string, a: Ref, r: Ref, pc: Pc)
    requires r !in w.insts && PcOk(w, pc)
    ensures PcOk(Inserted(w, id, a, r), pc)
  {
  }

  lemma PcInsert(w: World, t: Tid, id: string, a: Ref, r: Ref, pc: Option<Pc>)
    requires PcInv(w) && r !in w.insts && (pc.Some? ==> PcOk(Inserted(w, id, a, r), pc.value))
    ensures PcInv(Put(Inserted(w, id, a, r), t, pc))
  {
    var w1, w' := Inserted(w, id, a, r), Put(Inserted(w, id, a, r), t, pc);
    forall u: Tid | u in w'.threads ensures PcOk(w', w'.threads[u]) {
      PcOkSame(w1, w', w'.threads[u]);
      if u != t { PcOkInsert(w, id, a, r, w.threads[u]); }
    }
  }

  lemma ThreadPartsOf(w: World, w1: World, t: Tid, pc: Option<Pc>)
    requires TokenInv(w) && LockInv(w)
    requires w1.threads == w.threads && w1.tokens == w.tokens && w1.maxProvision == w.maxProvision && w1.lock == w.lock
    requires TokenOpt(pc) == TokenOpt(At(w, t)) && ScanOpt(pc) == ScanOpt(At(w, t))
    ensures TokenInv(Put(w1, t, pc)) && LockInv(Put(w1, t, pc))
  {
    assert Holders(w1) == Holders(w);
    assert At(w1, t) == At(w, t);
    TokenMoves(w1, t, pc);
    LockMoves(w1, t, pc);
  }

  lemma InsertMoves(w: World, t: Tid, id: string, a: Ref, r: Ref, pc: Option<Pc>)
    requires Inv(w) && r !in w.insts && id !in w.table && |w.table| < w.maxVMs && ValidVmId(id)
    requires Held(w, t) == Some(a) && HeldOpt(pc).None? && MidOpt(pc) == Mid(w, t)
    requires ScanOpt(pc) == ScanOpt(At(w, t)) && TokenOpt(pc) == TokenOpt(At(w, t))
    requires pc.Some? ==> PcOk(Inserted(w, id, a, r), pc.value)
    ensures Inv(Put(Inserted(w, id, a, r), t, pc))
  {
    OwnerInsert(w, t, id, a, r, pc);
    TableInsert(w, t, id, a, r, pc);
    MidInsert(w, t, id, a, r, pc);
    PcInsert(w, t, id, a, r, pc);
    ThreadPartsOf(w, Inserted(w, id, a, r), t, pc);
    assert Live(w, a) && w.leases[a].cleanup == [];
  }

  // ---- deletion ----

  lemma OthersInTable(w: World, id: string, r: Ref, early: bool, q: Ref)
    requires TableInv(w) && id in w.table && w.table[id] == r && q in w.insts
    ensures InTable(Removed(w, id, r, early), q) <==> InTable(w, q) && q != r
  {
  }

  lemma TableRemoved(w: World, id: string, r: Ref, early: bool)
    requires TableInv(w) && id in w.table && w.table[id] == r && (!early ==> w.insts[r].vm.state == Stopped)
    ensures TableInv(Removed(w, id, r, early))
  {
    var w' := Removed(w, id, r, early);
    assert w'.table.Keys == w.table.Keys - {id};
    forall q: Ref | q in w'.insts ensures q in w'.gone <==> !InTable(w', q) {
      OthersInTable(w, id, r, early, q);
    }
  }

  lemma TableRemove(w: World, t: Tid, id: string, r: Ref, early: bool, pc: Option<Pc>)
    requires TableInv(w) && id in w.table && w.table[id] == r && (!early ==> w.insts[r].vm.state == Stopped)
    ensures TableInv(Put(Removed(w, id, r, early), t, pc))
  {
    TableRemoved(w, id, r, early);
    TableSame(Removed(w, id, r, early), Put(Removed(w, id, r, early), t, pc));
  }

  lemma PcRemove(w: World, t: Tid, id: string, r: Ref, early: bool, pc: Option<Pc>)
    requires PcInv(w) && LockInv(w) && w.lock.None? && !ScanOpt(pc) && (pc.Some? ==> PcOk(w, pc.value))
    ensures PcInv(Put(Removed(w, id, r, early), t, pc))
  {
    var w' := Put(Removed(w, id, r, early), t, pc);
    forall u: Tid | u in w'.threads ensures PcOk(w', w'.threads[u]) {
      var p := w'.threads[u];
      assert u != t ==> !(w.lock == Some(u));
      assert !p.RcScan?;
      PcOkSame(w, w'.(table := w.table), p);
      PcOkNoTable(w', w.table, p);
    }
  }

  lemma PcOkNoTable(w: World, table: map<string, Ref>, pc: Pc)
    requires !pc.RcScan?
    ensures PcOk(w, pc) == PcOk(w.(table := table), pc)
  {
  }

  lemma RemoveMoves(w: World, t: Tid, id: string, r: Ref, early: bool, pc: Option<Pc>)
    requires Inv(w) && w.lock.None? && id in w.table && w.table[id] == r && (!early ==> w.insts[r].vm.state == Stopped)
    requires MidOpt(pc) == Mid(w, t) && HeldOpt(pc) == Held(w, t)
    requires !ScanOpt(pc) && !ScanOpt(At(w, t)) && TokenOpt(pc) == TokenOpt(At(w, t))
    requires pc.Some? ==> PcOk(w, pc.value)
    ensures Inv(Put(Removed(w, id, r, early), t, pc))
  {
    var w1 := Removed(w, id, r, early);
    TableRemove(w, t, id, r, early, pc);
    PcRemove(w, t, id, r, early, pc);
    ThreadPartsOf(w, w1, t, pc);
    OwnersOf(w, w1, t, pc);
  }

  lemma OwnersOf(w: World, w1: World, t: Tid, pc: Option<Pc>)
    requires OwnerInv(w) && MidInv(w) && w1.threads == w.threads && w1.insts == w.insts && w1.leases == w.leases
    requires MidOpt(pc) == Mid(w, t) && HeldOpt(pc) == Held(w, t)
    ensures OwnerInv(Put(w1, t, pc)) && MidInv(Put(w1, t, pc))
  {
    PutThreads(w1, t, pc);
    assert forall u: Tid :: Held(w1, u) == Held(w, u) && Mid(w1, u) == Mid(w, u);
    OwnerSame(w, Put(w1, t, pc));
    MidSame(w, Put(w1, t, pc));
  }

  // ---- tokens and the manager lock ----

  /** Everything but tokens and lock. */
  ghost predicate Core(w: World) {
    PoolInv(w) && OwnerInv(w) && TableInv(w) && MidInv(w) && ShapeInv(w) && PcInv(w)
  }

  lemma CoreMoves(w: World, t: Tid, pc: Option<Pc>, tokens: nat, lock: Option<Tid>)
    requires Core(w) && MidOpt(pc) == Mid(w, t) && HeldOpt(pc) == Held(w, t) && (pc.Some? ==> PcOk(w, pc.value))
    ensures Core(Put(w.(tokens := tokens, lock := lock), t, pc))
  {
    var w1 := w.(tokens := tokens, lock := lock);
    PcMoves(w, t, pc);
    PcAgain(Put(w, t, pc), Put(w1, t, pc));
    OwnersOf(w, w1, t, pc);
    TableSame(w, Put(w1, t, pc));
  }

  lemma PcAgain(w: World, w': World)
    requires PcInv(w) && w'.threads == w.threads && w'.insts == w.insts && w'.leases == w.leases && w'.table == w.table
    ensures PcInv(w')
  {
    forall u: Tid | u in w'.threads ensures PcOk(w', w'.threads[u]) {
      PcOkSame(w, w', w'.threads[u]);
    }
  }

  lemma TokenTaken(w: World, t: Tid, pc: Pc)
    requires Inv(w) && t !in w.threads && TokenOf(pc) && w.tokens < w.maxProvision
    requires MidOf(pc).None? && HeldOf(pc).None? && !pc.RcScan? && PcOk(w, pc)
    ensures Inv(Put(w.(tokens := w.tokens + 1), t, Some(pc)))
  {
    var w1 := w.(tokens := w.tokens + 1);
    CoreMoves(w, t, Some(pc), w.tokens + 1, w.lock);
    assert Holders(w1) == Holders(w);
    TokenMoves(w1, t, Some(pc));
    LockMoves(w1, t, Some(pc));
  }

  lemma TokenGiven(w: World, t: Tid)
    requires Inv(w) && At(w, t) == Some(ProvExit) && w.tokens > 0
    ensures Inv(Put(w.(tokens := w.tokens - 1), t, None))
  {
    var w1 := w.(tokens := w.tokens - 1);
    CoreMoves(w, t, None, w.tokens - 1, w.lock);
    assert Holders(w1) == Holders(w);
    TokenMoves(w1, t, None);
    LockMoves(w1, t, None);
  }

  /** The lock follows the only thread that scans. */
  lemma LockShifts(w: World, t: Tid, pc: Option<Pc>, lock: Option<Tid>)
    requires LockInv(w) && (w.lock.Some? ==> w.lock == Some(t))
    requires lock == if ScanOpt(pc) then Some(t) else None
    ensures LockInv(Put(w.(lock := lock), t, pc))
  {
    var w1 := w.(lock := lock);
    PutThreads(w1, t, pc);
    var w' := Put(w1, t, pc);
    forall u: Tid ensures w'.lock == Some(u) <==> u in w'.threads && w'.threads[u].RcScan? {
      assert At(w', u) == if u == t then pc else At(w, u);
      assert w.lock == Some(u) <==> u in w.threads && w.threads[u].RcScan?;
    }
  }

  lemma LockMovesOn(w: World, t: Tid, pc: Option<Pc>, lock: Option<Tid>)
    requires Inv(w) && (w.lock.Some? ==> w.lock == Some(t)) && lock == if ScanOpt(pc) then Some(t) else None
    requires MidOpt(pc) == Mid(w, t) && HeldOpt(pc) == Held(w, t) && TokenOpt(pc) == TokenOpt(At(w, t))
    requires pc.Some? ==> PcOk(w, pc.value)
    ensures Inv(Put(w.(lock := lock), t, pc))
  {
    var w1 := w.(lock := lock);
    CoreMoves(w, t, pc, w.tokens, lock);
    assert Holders(w1) == Holders(w);
    TokenMoves(w1, t, pc);
    LockShifts(w, t, pc, lock);
  }

  // ---- every step is one of these moves ----

  datatype Move =
    | Stay
    | Walk(pc: Option<Pc>)
    | SetsVm(r: Ref, v: Vm, pc: Option<Pc>)
    | SetsLease(r: Ref, l: Lease, p: Pool, pc: Option<Pc>)
    | GivesBack(a: Ref, l: Lease, p: Pool, pc: Option<Pc>)
    | Acquires(a: Ref, l: Lease, p: Pool, pc: Option<Pc>)
    | Inserts(id: string, a: Ref, r: Ref, pc: Option<Pc>)
    | Removes(id: string, r: Ref, early: bool, pc: Option<Pc>)
    | TakesToken(first: Pc)
    | GivesToken
    | Locks(pc: Option<Pc>)

  /** Where thread t stands after the move. */
  function Lands(w: World, t: Tid, m: Move): Option<Pc> {
    match m
    case Stay => At(w, t)
    case TakesToken(first) => Some(first)
    case GivesToken => None
    case _ => m.pc
  }

  predicate Enabled(w: World, m: Move) {
    match m
    case SetsVm(r, _, _) => r in w.insts
    case SetsLease(r, _, _, _) => r in w.insts
    case GivesToken => w.tokens > 0
    case _ => true
  }

  /** The move before the thread is put at its new position. */
  function Effect(w: World, t: Tid, m: Move): World
    requires Enabled(w, m)
  {
    match m
    case SetsVm(r, v, _) => SetVm(w, r, v)
    case SetsLease(r, l, p, _) => w.(pool := p, leases := w.leases[w.insts[r].net := l])
    case GivesBack(a, l, p, _) => w.(pool := p, leases := w.leases[a := l])
    case Acquires(a, l, p, _) => w.(pool := p, leases := w.leases[a := l])
    case Inserts(id, a, r, _) => Inserted(w, id, a, r)
    case Removes(id, r, early, _) => Removed(w, id, r, early)
    case TakesToken(_) => w.(tokens := w.tokens + 1)
    case GivesToken => w.(tokens := w.tokens - 1)
    case Locks(pc) => w.(lock := if ScanOpt(pc) then Some(t) else None)
    case _ => w
  }

  function Moved(w: World, t: Tid, m: Move): World
    requires Enabled(w, m)
  {
    if m.Stay? then w else Put(Effect(w, t, m), t, Lands(w, t, m))
  }

  /** The thread may land there: its position is backed by the new world, and tokens, lock and holdings agree. */
  predicate LandsWell(w: World, t: Tid, m: Move)
    requires Enabled(w, m)
  {
    var pc := Lands(w, t, m);
    && (pc.Some? ==> PcOk(Effect(w, t, m), pc.value))
    && (!m.TakesToken? && !m.GivesToken? ==> TokenOpt(pc) == TokenOpt(At(w, t)))
    && (!m.Locks? ==> ScanOpt(pc) == ScanOpt(At(w, t)))
    && (!m.GivesBack? && !m.Acquires? && !m.Inserts? ==> HeldOpt(pc) == Held(w, t))
    && (!m.SetsVm? ==> MidOpt(pc) == Mid(w, t))
  }

  /** The move is one the protocol may make. */
  ghost predicate Fits(w: World, t: Tid, m: Move) {
    && Enabled(w, m)
    && (m.Stay? || LandsWell(w, t, m))
    && match m
       case Stay => true
       case Walk(_) => true
       case SetsVm(r, v, pc) =>
         && Exclusive(w, t, r) && w.insts[r].vm.state != Stopped
         && MidOpt(pc) == (if Transitional(v.state) then Some((r, v.state)) else None)
         && w.insts[r].net in w.leases && Shape(v, w.leases[w.insts[r].net])
       case SetsLease(r, l, p, pc) =>
         Mid(w, t).Some? && Mid(w, t).value.0 == r && LeaseStep(w, w.insts[r].net, l, p) && Shape(w.insts[r].vm, l)
       case GivesBack(a, l, p, pc) => Held(w, t) == Some(a) && HeldOpt(pc).None? && LeaseStep(w, a, l, p) && l.released
       case Acquires(a, l, p, pc) =>
         && a !in w.leases && Held(w, t).None? && HeldOpt(pc) == Some(a)
         && !l.released && l.cleanup == [] && Allocated(w.pool) == (p, Granted(l.subnet, l.cid))
       case Inserts(id, a, r, pc) =>
         && r !in w.insts && id !in w.table && |w.table| < w.maxVMs && w.lock.None? && ValidVmId(id)
         && Held(w, t) == Some(a) && HeldOpt(pc).None?
       case Removes(id, r, early, pc) =>
         && w.lock.None? && id in w.table && w.table[id] == r && r in w.insts
         && (!early ==> w.insts[r].vm.state == Stopped)
         && t in w.threads && w.threads[t].Remove? && w.threads[t].r == r && w.threads[t].early == early
         && !w.threads[t].k.Direct? && w.threads[t].k.id == id && !ScanOpt(pc)
       case TakesToken(first) =>
         t !in w.threads && TokenOf(first) && w.tokens < w.maxProvision && !first.RcScan?
       case GivesToken => At(w, t) == Some(ProvExit)
       case Locks(pc) => w.lock.Some? ==> w.lock == Some(t)
  }

  lemma SetsLeaseKeeps(w: World, t: Tid, m: Move)
    requires Inv(w) && Fits(w, t, m) && m.SetsLease?
    ensures Inv(Moved(w, t, m))
  {
    NetMoves(w, t, m.r, m.l, m.p, m.pc);
  }

  lemma GivesBackKeeps(w: World, t: Tid, m: Move)
    requires Inv(w) && Fits(w, t, m) && m.GivesBack?
    ensures Inv(Moved(w, t, m))
  {
    UndoMoves(w, t, m.a, m.l, m.p, m.pc);
  }

  lemma AcquiresKeeps(w: World, t: Tid, m: Move)
    requires Inv(w) && Fits(w, t, m) && m.Acquires?
    ensures Inv(Moved(w, t, m))
  {
    AcquireMoves(w, t, m.a, m.l, m.p, m.pc);
  }

  lemma SetsVmKeeps(w: World, t: Tid, m: Move)
    requires Inv(w) && Fits(w, t, m) && m.SetsVm?
    ensures Inv(Moved(w, t, m))
  {
    VmMoves(w, t, m.r, m.v, m.pc);
  }

  lemma InsertsKeeps(w: World, t: Tid, m: Move)
    requires Inv(w) && Fits(w, t, m) && m.Inserts?
    ensures Inv(Moved(w, t, m))
  {
    InsertMoves(w, t, m.id, m.a, m.r, m.pc);
  }

  lemma RemovalKeeps(w: World, t: Tid, m: Move)
    requires Inv(w) && Fits(w, t, m) && m.Removes?
    ensures Inv(Moved(w, t, m))
  {
    if m.pc.Some? {
      PcOkSame(Removed(w, m.id, m.r, m.early), w.(table := w.table - {m.id}), m.pc.value);
      PcOkNoTable(w, w.table - {m.id}, m.pc.value);
    }
    RemoveMoves(w, t, m.id, m.r, m.early, m.pc);
  }

  lemma TokenMoveKeeps(w: World, t: Tid, m: Move)
    requires Inv(w) && Fits(w, t, m) && (m.TakesToken? || m.GivesToken?)
    ensures Inv(Moved(w, t, m))
  {
    if m.TakesToken? {
      PcOkSame(w, w.(tokens := w.tokens + 1), m.first);
      TokenTaken(w, t, m.first);
    } else {
      TokenGiven(w, t);
    }
  }

  lemma WalkKeeps(w: World, t: Tid, m: Move)
    requires Inv(w) && Fits(w, t, m) && m.Walk?
    ensures Inv(Moved(w, t, m))
  {
    ThreadMoves(w, t, m.pc);
  }

  lemma LockMoveKeeps(w: World, t: Tid, m: Move)
    requires Inv(w) && Fits(w, t, m) && m.Locks?
    ensures Inv(Moved(w, t, m))
  {
    var lock := if ScanOpt(m.pc) then Some(t) else None;
    if m.pc.Some? { PcOkSame(w, w.(lock := lock), m.pc.value); }
    LockMovesOn(w, t, m.pc, lock);
  }

  lemma LeaseMoveKeeps(w: World, t: Tid, m: Move)
    requires Inv(w) && Fits(w, t, m) && (m.SetsLease? || m.GivesBack? || m.Acquires?)
    ensures Inv(Moved(w, t, m))
  {
    if m.SetsLease? {
      SetsLeaseKeeps(w, t, m);
    } else if m.GivesBack? {
      GivesBackKeeps(w, t, m);
    } else {
      AcquiresKeeps(w, t, m);
    }
  }

  lemma ControlMoveKeeps(w: World, t: Tid, m: Move)
    requires Inv(w) && Fits(w, t, m) && (m.Walk? || m.TakesToken? || m.GivesToken? || m.Locks?)
    ensures Inv(Moved(w, t, m))
  {
    if m.Walk? {
      WalkKeeps(w, t, m);
    } else if m.Locks? {
      LockMoveKeeps(w, t, m);
    } else {
      TokenMoveKeeps(w, t, m);
    }
  }

  lemma EntryMoveKeeps(w: World, t: Tid, m: Move)
    requires Inv(w) && Fits(w, t, m) && (m.SetsVm? || m.Inserts? || m.Removes?)
    ensures Inv(Moved(w, t, m))
  {
    if m.SetsVm? {
      SetsVmKeeps(w, t, m);
    } else if m.Inserts? {
      InsertsKeeps(w, t, m);
    } else {
      RemovalKeeps(w, t, m);
    }
  }

  lemma MoveKeeps(w: World, t: Tid, m: Move)
    requires Inv(w) && Fits(w, t, m)
    ensures Inv(Moved(w, t, m))
  {
    if m.SetsLease? || m.GivesBack? || m.Acquires? {
      LeaseMoveKeeps(w, t, m);
    } else if m.SetsVm? || m.Inserts? || m.Removes? {
      EntryMoveKeeps(w, t, m);
    } else if !m.Stay? {
      ControlMoveKeeps(w, t, m);
    }
  }
}
