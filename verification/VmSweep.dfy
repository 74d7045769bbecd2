/** CreateVM, DestroyVM and Reconcile, each run by a thread that meets no interference, against the sequential calls. */
module VmSweep {
  import opened Common
  import opened Ipam
  import opened Lifecycle
  import opened Manager
  import opened VmProtocol
  import opened VmInvariant
  import opened VmTheorems
  import opened VmSolo

  // ---- CreateVM ----

  function Fresh(a: Ref): Env {
    Env(true, true, {}, a, "")
  }

  /** CreateVM past its name check: the first lock section, Acquire with address a, the second section with address
      r. */
  function CreateAlone(w: World, t: Tid, a: Ref, r: Ref): World {
    var w1 := RunStep(w, t, YES);
    if !(t in w1.threads && w1.threads[t].CrAcquire?) then w1
    else
      var w2 := RunStep(w1, t, Fresh(a));
      if t in w2.threads && w2.threads[t].CrInsert? then RunStep(w2, t, Fresh(r)) else w2
  }

  /** CreateVM alone inserts a new VM with the next lease exactly when the table has room, the name is free and a lease
      is left, and otherwise changes nothing. */
  lemma CreateAloneIsCreateVM(w: World, t: Tid, id: string, prov: bool, a: Ref, r: Ref)
    requires t in w.threads && w.threads[t] == CrCheck(id, prov) && w.lock.None? && a !in w.leases && r !in w.insts
    ensures CreateAlone(w, t, a, r) ==
            if |w.table| < w.maxVMs && id !in w.table && NextLease(w.pool).Some?
            then Put(w.(pool := Allocated(w.pool).0, leases := w.leases[a := NextLease(w.pool).value],
                        insts := w.insts[r := Inst(id, a, Vm(Created, false))], table := w.table[id := r]),
                     t, if prov then Some(CfEnter(r, Some(id))) else None)
            else Put(w, t, AfterCreateFails(prov))
  {
    var w1 := RunStep(w, t, YES);
    assert w1 == CreateStep(w, t, CrCheck(id, prov), YES);
    if |w.table| < w.maxVMs && id !in w.table {
      var w2 := RunStep(w1, t, Fresh(a));
      assert w2 == CreateStep(w1, t, CrAcquire(id, prov), Fresh(a));
      AcquireAlone(w, t, id, prov, a);
      if NextLease(w.pool).Some? { InsertAlone(w, t, id, prov, a, r); }
    }
  }

  function Acquired(w: World, t: Tid, id: string, prov: bool, a: Ref): World
    requires NextLease(w.pool).Some?
  {
    Put(w.(pool := Allocated(w.pool).0, leases := w.leases[a := NextLease(w.pool).value]), t,
        Some(CrInsert(id, a, prov)))
  }

  lemma AcquireAlone(w: World, t: Tid, id: string, prov: bool, a: Ref)
    requires a !in w.leases
    ensures RunStep(Put(w, t, Some(CrAcquire(id, prov))), t, Fresh(a)) ==
            if NextLease(w.pool).Some? then Acquired(w, t, id, prov, a) else Put(w, t, AfterCreateFails(prov))
  {
    var w1 := Put(w, t, Some(CrAcquire(id, prov)));
    assert RunStep(w1, t, Fresh(a)) == CreateStep(w1, t, CrAcquire(id, prov), Fresh(a));
    PutTwice(w, t, CrAcquire(id, prov), AfterCreateFails(prov));
    assert w1.threads[t := CrInsert(id, a, prov)] == w.threads[t := CrInsert(id, a, prov)];
  }

  lemma PutTwice(w: World, t: Tid, pc: Pc, pc': Option<Pc>)
    ensures Put(Put(w, t, Some(pc)), t, pc') == Put(w, t, pc')
  {
    assert Put(Put(w, t, Some(pc)), t, pc').threads == Put(w, t, pc').threads;
  }

  lemma InsertAlone(w: World, t: Tid, id: string, prov: bool, a: Ref, r: Ref)
    requires w.lock.None? && r !in w.insts && id !in w.table && |w.table| < w.maxVMs && NextLease(w.pool).Some?
    ensures var next := if prov then Some(CfEnter(r, Some(id))) else None;
            RunStep(Acquired(w, t, id, prov, a), t, Fresh(r)) ==
            Put(w.(pool := Allocated(w.pool).0, leases := w.leases[a := NextLease(w.pool).value],
                   insts := w.insts[r := Inst(id, a, Vm(Created, false))], table := w.table[id := r]), t, next)
  {
    var w1 := w.(pool := Allocated(w.pool).0, leases := w.leases[a := NextLease(w.pool).value]);
    var next := if prov then Some(CfEnter(r, Some(id))) else None;
    InsertRuns(w1, t, id, prov, a, r);
    PutTwice(w1.(insts := w.insts[r := Inst(id, a, Vm(Created, false))], table := w.table[id := r]), t,
             CrInsert(id, a, prov), next);
  }

  lemma InsertRuns(w: World, t: Tid, id: string, prov: bool, a: Ref, r: Ref)
    requires w.lock.None? && r !in w.insts && id !in w.table && |w.table| < w.maxVMs
    ensures var w1 := w.(insts := w.insts[r := Inst(id, a, Vm(Created, false))], table := w.table[id := r]);
            RunStep(Put(w, t, Some(CrInsert(id, a, prov))), t, Fresh(r)) ==
            Put(Put(w1, t, Some(CrInsert(id, a, prov))), t, if prov then Some(CfEnter(r, Some(id))) else None)
  {
    var w2 := Put(w, t, Some(CrInsert(id, a, prov)));
    assert RunStep(w2, t, Fresh(r)) == CreateStep(w2, t, CrInsert(id, a, prov), Fresh(r));
  }

  // ---- DestroyVM ----

  function DestroyAlone(w: World, t: Tid, e: StopEnv): World {
    var w1 := RunStep(w, t, YES);
    if t in w1.threads then RemoveAlone(w1, t, e) else w1
  }

  /** DestroyVM alone fails on an unknown name and changes nothing; otherwise it stops the VM as StopCall says and
      deletes the entry exactly when that reports success. */
  lemma DestroyAloneIsDestroyVM(w: World, t: Tid, id: string, e: StopEnv, socket: bool)
    requires t in w.threads && w.threads[t] == DsLookup(id) && w.lock.None?
    requires id in w.table ==> w.table[id] in w.insts && w.insts[w.table[id]].net in w.leases
    ensures DestroyAlone(w, t, e) ==
            if id !in w.table then Put(w, t, None)
            else
              var r := w.table[id];
              var h := HoldingsOf(w, r, socket);
              var (h', ok) := StopCall(h, e);
              At(if ok then Removed(w, id, r, EnterStop(h.vm).None?) else w, t, r, h'.vm, h'.lease,
                 PoolAfterStop(w.pool, h, e), None)
  {
    assert RunStep(w, t, YES) == TableStep(w, t, DsLookup(id), YES);
    if id in w.table {
      var r := w.table[id];
      var h := HoldingsOf(w, r, socket);
      var w1 := Put(w, t, Some(SpEnter(r, Destroy(id))));
      var (h', ok) := StopCall(h, e);
      RemoveAloneIsStopCall(w1, t, r, Destroy(id), e, socket);
      AtStart(w, t, r, Some(SpEnter(r, Destroy(id))));
      var u := if ok then Removed(w, id, r, EnterStop(h.vm).None?) else w;
      AtTwice(u, t, r, h.vm, h.lease, w.pool, Some(SpEnter(r, Destroy(id))), h'.vm, h'.lease,
              PoolAfterStop(w.pool, h, e), None);
      AtStart(u, t, r, Some(SpEnter(r, Destroy(id))));
    }
  }

  // ---- Reconcile: the scan ----

  function Picking(id: string): Env {
    Env(true, true, {}, 0, id)
  }

  function ScanAll(w: World, t: Tid, picks: seq<string>): World
    decreases |picks|
  {
    if picks == [] then w else ScanAll(RunStep(w, t, Picking(picks[0])), t, picks[1..])
  }

  predicate Listed(w: World, id: string) {
    id in w.table && w.table[id] in w.insts
  }

  predicate FailedEntry(w: World, id: string) {
    Listed(w, id) && w.insts[w.table[id]].vm.state == CleanupFailed
  }

  /** The failed entries among the picks, in the order they are looked at. */
  function FoundIn(w: World, picks: seq<string>): (items: seq<Item>) {
    if picks == [] then []
    else (if FailedEntry(w, picks[0]) then [(picks[0], w.table[picks[0]])] else []) + FoundIn(w, picks[1..])
  }

  lemma {:induction false} FoundMember(w: World, picks: seq<string>, x: Item)
    ensures x in FoundIn(w, picks) <==> x.0 in picks && FailedEntry(w, x.0) && x.1 == w.table[x.0]
    decreases |picks|
  {
    if picks != [] {
      FoundMember(w, picks[1..], x);
      assert x.0 in picks <==> x.0 == picks[0] || x.0 in picks[1..];
    }
  }

  lemma ScanOnce(w: World, t: Tid, todo: set<string>, found: seq<Item>, id: string)
    requires t in w.threads && w.threads[t] == RcScan(todo, found) && id in todo && Listed(w, id)
    ensures RunStep(w, t, Picking(id)) ==
            Put(w, t, Some(RcScan(todo - {id}, if FailedEntry(w, id) then found + [(id, w.table[id])] else found)))
  {
    assert RunStep(w, t, Picking(id)) == TableStep(w, t, RcScan(todo, found), Picking(id));
  }

  lemma {:induction false} FoundSame(w: World, w': World, picks: seq<string>)
    requires w'.table == w.table && w'.insts == w.insts
    ensures FoundIn(w', picks) == FoundIn(w, picks)
    decreases |picks|
  {
    if picks != [] { FoundSame(w, w', picks[1..]); }
  }

  lemma Assoc(a: seq<Item>, b: seq<Item>, c: seq<Item>)
    ensures a + b + c == a + (b + c)
  {
  }

  lemma FoundNext(w: World, found: seq<Item>, picks: seq<string>)
    requires picks != []
    ensures var more := if FailedEntry(w, picks[0]) then found + [(picks[0], w.table[picks[0]])] else found;
            more + FoundIn(w, picks[1..]) == found + FoundIn(w, picks)
  {
    var rest := FoundIn(w, picks[1..]);
    if FailedEntry(w, picks[0]) {
      Assoc(found, [(picks[0], w.table[picks[0]])], rest);
    } else {
      assert FoundIn(w, picks) == [] + rest == rest;
    }
  }

  lemma ListedRest(w: World, w': World, picks: seq<string>)
    requires picks != [] && w'.table == w.table && w'.insts == w.insts && forall id :: id in picks ==> Listed(w, id)
    ensures forall id :: id in picks[1..] ==> Listed(w', id)
  {
    forall id | id in picks[1..] ensures Listed(w', id) { assert id in picks && Listed(w, id); }
  }

  lemma {:induction false} ScanAllEnds(w: World, t: Tid, todo: set<string>, found: seq<Item>, picks: seq<string>)
    requires t in w.threads && w.threads[t] == RcScan(todo, found) && NoDup(picks) && Elems(picks) == todo
    requires forall id :: id in picks ==> Listed(w, id)
    ensures ScanAll(w, t, picks) == Put(w, t, Some(RcScan({}, found + FoundIn(w, picks))))
    decreases |picks|
  {
    if picks == [] {
      assert todo == {} && found + [] == found;
      assert w.threads[t := w.threads[t]] == w.threads;
    } else {
      var id, rest := picks[0], picks[1..];
      var more := if FailedEntry(w, id) then found + [(id, w.table[id])] else found;
      assert id in Elems(picks);
      ScanOnce(w, t, todo, found, id);
      RestOf(picks);
      var w1 := Put(w, t, Some(RcScan(todo - {id}, more)));
      FoundSame(w, w1, rest);
      ListedRest(w, w1, picks);
      ScanAllEnds(w1, t, todo - {id}, more, rest);
      FoundNext(w, found, picks);
      PutTwice(w, t, RcScan(todo - {id}, more), Some(RcScan({}, found + FoundIn(w, picks))));
    }
  }

  lemma RestOf(picks: seq<string>)
    requires NoDup(picks) && picks != []
    ensures Elems(picks[1..]) == Elems(picks) - {picks[0]} && NoDup(picks[1..])
  {
    var rest := picks[1..];
    assert picks == [picks[0]] + rest;
    forall id | id in rest ensures id != picks[0] {
      var k :| 0 <= k < |rest| && rest[k] == id;
      assert picks[k + 1] == id;
    }
  }

  // ---- Reconcile: the retries ----

  function RetryAll(w: World, t: Tid, items: seq<Item>, host: string -> StopEnv): World
    decreases |items|
  {
    if items == [] then w else RetryAll(RemoveAlone(w, t, host(items[0].0)), t, items[1..], host)
  }

  function ReconcileAlone(w: World, t: Tid, picks: seq<string>, host: string -> StopEnv): World {
    var w1 := RunStep(ScanAll(RunStep(w, t, YES), t, picks), t, YES);
    RetryAll(w1, t, FoundIn(w, picks), host)
  }

  ghost predicate NetsApart(w: World) {
    && (forall r: Ref :: r in w.insts ==> w.insts[r].net in w.leases)
    && (forall r: Ref, q: Ref :: r in w.insts && q in w.insts && r != q ==> w.insts[r].net != w.insts[q].net)
  }

  ghost predicate Apart(items: seq<Item>) {
    forall i, j :: 0 <= i < j < |items| ==> items[i].0 != items[j].0 && items[i].1 != items[j].1
  }

  /** Thread t is about to retry these items: entries of the table under distinct names, on distinct instances. */
  ghost predicate Ready(w: World, t: Tid, items: seq<Item>) {
    && NetsApart(w) && w.lock.None?
    && (items != [] ==> t in w.threads && Some(w.threads[t]) == NextRetry(items))
    && (forall x :: x in items ==> x.0 in w.table && w.table[x.0] == x.1 && x.1 in w.insts)
    && Apart(items)
  }

  /** One retry: its own instance and lease as StopCall says, its own entry, and nothing of anyone else. */
  lemma RetryFirst(w: World, t: Tid, items: seq<Item>, host: string -> StopEnv, socket: bool)
    requires Ready(w, t, items) && items != []
    ensures var (id, r) := items[0];
            var (h', ok) := StopCall(HoldingsOf(w, r, socket), host(id));
            var w1 := RemoveAlone(w, t, host(id));
            && r in w1.insts && w1.insts.Keys == w.insts.Keys && w1.leases.Keys == w.leases.Keys && w1.lock.None?
            && w1.insts[r] == w.insts[r].(vm := h'.vm) && w1.leases[w.insts[r].net] == h'.lease
            && (forall q: Ref :: q in w.insts && q != r ==> w1.insts[q] == w.insts[q])
            && (forall a: Ref :: a in w.leases && a != w.insts[r].net ==> w1.leases[a] == w.leases[a])
            && w1.table == (if ok then w.table - {id} else w.table)
            && w1.threads == (if items[1..] == [] then w.threads - {t} else w.threads[t := NextRetry(items[1..]).value])
  {
    var (id, r) := items[0];
    assert items[0] in items;
    RemoveAloneIsStopCall(w, t, r, Retry(id, items[1..]), host(id), socket);
  }

  lemma ReadyRest(w: World, t: Tid, items: seq<Item>, host: string -> StopEnv)
    requires Ready(w, t, items) && items != []
    ensures Ready(RemoveAlone(w, t, host(items[0].0)), t, items[1..])
  {
    RetryFirst(w, t, items, host, false);
    var w1, rest := RemoveAlone(w, t, host(items[0].0)), items[1..];
    assert forall k :: 0 <= k < |rest| ==> rest[k] == items[k + 1];
    forall x | x in rest ensures x.0 in w1.table && w1.table[x.0] == x.1 && x.1 in w1.insts {
      var k :| 0 <= k < |rest| && rest[k] == x;
      assert items[k + 1] == x && x in items && items[0].0 != items[k + 1].0;
    }
  }

  /** A later retry does not touch an instance or an entry that is not its own. */
  lemma {:induction false} RetriesSpare(w: World, t: Tid, items: seq<Item>, host: string -> StopEnv, id: string, r: Ref)
    requires Ready(w, t, items) && r in w.insts
    requires forall x :: x in items ==> x.0 != id && x.1 != r
    ensures var w' := RetryAll(w, t, items, host);
            && r in w'.insts && w'.insts[r] == w.insts[r]
            && w.insts[r].net in w'.leases && w'.leases[w.insts[r].net] == w.leases[w.insts[r].net]
            && (id in w'.table <==> id in w.table) && (id in w.table ==> w'.table[id] == w.table[id])
    decreases |items|
  {
    if items != [] {
      assert items[0] in items;
      RetryFirst(w, t, items, host, false);
      ReadyRest(w, t, items, host);
      assert forall x :: x in items[1..] ==> x in items;
      RetriesSpare(RemoveAlone(w, t, host(items[0].0)), t, items[1..], host, id, r);
    }
  }

  lemma OthersThanFirst(items: seq<Item>, x: Item)
    requires Apart(items) && items != []
    ensures x in items[1..] ==> x in items && x.0 != items[0].0 && x.1 != items[0].1
  {
    var rest := items[1..];
    if x in rest {
      var k :| 0 <= k < |rest| && rest[k] == x;
      assert items[k + 1] == x;
    }
  }

  /** What the retries make of one of their items. */
  ghost predicate Retried(w: World, w': World, host: string -> StopEnv, id: string, r: Ref, socket: bool) {
    && r in w.insts && w.insts[r].net in w.leases
    && var (h', ok) := StopCall(HoldingsOf(w, r, socket), host(id));
       && r in w'.insts && w'.insts[r] == w.insts[r].(vm := h'.vm)
       && w.insts[r].net in w'.leases && w'.leases[w.insts[r].net] == h'.lease
       && (id in w'.table <==> !ok)
  }

  lemma FirstIsDone(w: World, t: Tid, items: seq<Item>, host: string -> StopEnv, socket: bool)
    requires Ready(w, t, items) && items != []
    ensures Retried(w, RetryAll(w, t, items, host), host, items[0].0, items[0].1, socket)
  {
    var w1, rest := RemoveAlone(w, t, host(items[0].0)), items[1..];
    RetryFirst(w, t, items, host, socket);
    ReadyRest(w, t, items, host);
    forall x | x in rest ensures x.0 != items[0].0 && x.1 != items[0].1 { OthersThanFirst(items, x); }
    RetriesSpare(w1, t, rest, host, items[0].0, items[0].1);
  }

  lemma {:induction false} RetriesDo(w: World, t: Tid, items: seq<Item>, host: string -> StopEnv, id: string, r: Ref,
                                     socket: bool)
    requires Ready(w, t, items) && (id, r) in items
    ensures Retried(w, RetryAll(w, t, items, host), host, id, r, socket)
    decreases |items|
  {
    if items[0] == (id, r) {
      FirstIsDone(w, t, items, host, socket);
    } else {
      RetryFirst(w, t, items, host, socket);
      ReadyRest(w, t, items, host);
      assert items == [items[0]] + items[1..];
      OthersThanFirst(items, (id, r));
      RetriesDo(RemoveAlone(w, t, host(items[0].0)), t, items[1..], host, id, r, socket);
    }
  }

  // ---- Reconcile ----

  lemma ApartFirst(x: Item, rest: seq<Item>)
    requires Apart(rest) && forall j :: 0 <= j < |rest| ==> rest[j].0 != x.0 && rest[j].1 != x.1
    ensures Apart([x] + rest)
  {
  }

  lemma {:induction false} FoundApart(w: World, picks: seq<string>)
    requires NoDup(picks) && TableInv(w)
    ensures Apart(FoundIn(w, picks))
    decreases |picks|
  {
    if picks != [] {
      var rest := FoundIn(w, picks[1..]);
      RestOf(picks);
      FoundApart(w, picks[1..]);
      if FailedEntry(w, picks[0]) {
        forall j | 0 <= j < |rest| ensures rest[j].0 != picks[0] && rest[j].1 != w.table[picks[0]] {
          assert rest[j] in rest;
          FoundMember(w, picks[1..], rest[j]);
          assert rest[j].0 in Elems(picks[1..]);
        }
        ApartFirst((picks[0], w.table[picks[0]]), rest);
      } else {
        assert FoundIn(w, picks) == [] + rest == rest;
      }
    }
  }

  function Locked(w: World, t: Tid, pc: Pc): World {
    Put(w.(lock := Some(t)), t, Some(pc))
  }

  lemma ScanBegins(w: World, t: Tid)
    requires t in w.threads && w.threads[t] == RcLock && w.lock.None?
    ensures RunStep(w, t, YES) == Locked(w, t, RcScan(w.table.Keys, []))
  {
    assert RunStep(w, t, YES) == TableStep(w, t, RcLock, YES);
  }

  lemma ScanStops(w: World, t: Tid, found: seq<Item>)
    requires w.lock.None?
    ensures RunStep(Locked(w, t, RcScan({}, found)), t, YES) == Put(w, t, NextRetry(found))
  {
    var w2 := Locked(w, t, RcScan({}, found));
    assert RunStep(w2, t, YES) == TableStep(w2, t, RcScan({}, found), YES);
    PutTwice(w, t, RcScan({}, found), NextRetry(found));
    assert w2.(lock := None) == Put(w, t, Some(RcScan({}, found)));
  }

  lemma ScanAlone(w: World, t: Tid, picks: seq<string>)
    requires t in w.threads && w.threads[t] == RcLock && w.lock.None? && NoDup(picks) && Elems(picks) == w.table.Keys
    requires forall id :: id in w.table ==> Listed(w, id)
    ensures RunStep(ScanAll(RunStep(w, t, YES), t, picks), t, YES) == Put(w, t, NextRetry(FoundIn(w, picks)))
  {
    var w1, found := Locked(w, t, RcScan(w.table.Keys, [])), FoundIn(w, picks);
    ScanBegins(w, t);
    forall id | id in picks ensures Listed(w1, id) { assert id in Elems(picks) && Listed(w, id); }
    ScanAllEnds(w1, t, w.table.Keys, [], picks);
    FoundSame(w, w1, picks);
    assert [] + found == found;
    PutTwice(w.(lock := Some(t)), t, RcScan(w.table.Keys, []), Some(RcScan({}, found)));
    ScanStops(w, t, found);
  }

  lemma ScanIsReady(w: World, t: Tid, picks: seq<string>)
    requires t in w.threads && w.lock.None? && NoDup(picks) && TableInv(w) && NetsApart(w)
    ensures Ready(Put(w, t, NextRetry(FoundIn(w, picks))), t, FoundIn(w, picks))
  {
    var items := FoundIn(w, picks);
    FoundApart(w, picks);
    forall x | x in items ensures x.0 in w.table && w.table[x.0] == x.1 && x.1 in w.insts { FoundMember(w, picks, x); }
  }

  /** Reconcile run alone is the sequential Reconcile, in whatever order it looks at the entries: each VM in
      CleanupFailed ends as one retry leaves it and goes from the table exactly when that is clean, and every other VM
      stays as it was. */
  lemma ReconcileAloneIsReconcile(w: World, t: Tid, picks: seq<string>, host: string -> StopEnv, id: string,
                                  socket: bool)
    requires Reachable(w) && t in w.threads && w.threads[t] == RcLock && w.lock.None?
    requires NoDup(picks) && Elems(picks) == w.table.Keys && id in w.table
    ensures var w', r := ReconcileAlone(w, t, picks, host), w.table[id];
            && r in w.insts && w.insts[r].net in w.leases && r in w'.insts && w.insts[r].net in w'.leases
            && var h := HoldingsOf(w, r, socket);
               && w'.insts[r].vm == RetryView(h, host(id)).vm
               && w'.leases[w.insts[r].net] == RetryView(h, host(id)).lease
               && (id in w'.table <==> !RetryDrops(h, host(id)))
  {
    ReachableInv(w);
    var r, items := w.table[id], FoundIn(w, picks);
    assert forall x :: x in w.table ==> Listed(w, x);
    ScanAlone(w, t, picks);
    ScanIsReady(w, t, picks);
    var w1 := Put(w, t, NextRetry(items));
    FoundMember(w, picks, (id, r));
    assert id in Elems(picks);
    if FailedEntry(w, id) {
      RetriesDo(w1, t, items, host, id, r, socket);
    } else {
      forall x | x in items ensures x.0 != id && x.1 != r { FoundMember(w, picks, x); }
      RetriesSpare(w1, t, items, host, id, r);
    }
  }
}
