/** What holds in every reachable state of the outbox protocol, and across every run of it. */
module OutboxTheorems {
  import opened Common
  import opened Outbox
  import opened OutboxRelay
  import opened OutboxProtocol
  import opened OutboxInvariant

  // ---- accounting ----

  /** Each row's attempts are its failures, plus one while it is held or once it is published, plus its takeovers;
      it meets the schema and is in exactly one of the four situations. */
  lemma EveryClaimIsAccountedFor(w: World, id: Id)
    requires Reachable(w) && id in w.rows
    ensures var r := w.rows[id];
            && r.attempts == r.failures + One(r.lockedAt.Some?) + One(r.publishedAt.Some?) + Takeovers(w, id)
            && 0 <= r.failures <= r.attempts
            && SchemaOk(r)
            && exists s :: HasStatus(r, s) && forall s' :: HasStatus(r, s') ==> s' == s
  {
    ReachableInv(w);
    OneStatus(w.rows[id]);
  }

  // ---- delivery ----

  function Calls(log: seq<Delivery>, id: Id): (n: nat) {
    if log == [] then 0 else Calls(log[..|log| - 1], id) + if log[|log| - 1].id == id then 1 else 0
  }

  /** The claim numbers of the calls made for one event. */
  function Numbers(log: seq<Delivery>, id: Id): set<int> {
    set k | 0 <= k < |log| && log[k].id == id :: log[k].n
  }

  lemma {:induction false} CallsAreNumbers(log: seq<Delivery>, id: Id)
    requires forall j, k :: 0 <= j < k < |log| ==> log[j].id != log[k].id || log[j].n != log[k].n
    ensures Calls(log, id) == |Numbers(log, id)|
    decreases |log|
  {
    if log != [] {
      var init, last := log[..|log| - 1], log[|log| - 1];
      CallsAreNumbers(init, id);
      assert forall k :: 0 <= k < |init| ==> init[k] == log[k];
      if last.id == id {
        assert Numbers(log, id) == Numbers(init, id) + {last.n};
        assert last.n !in Numbers(init, id);
      } else {
        assert Numbers(log, id) == Numbers(init, id);
      }
    }
  }

  function Upto(n: nat): (s: set<int>)
    ensures |s| == n && forall k :: k in s <==> 1 <= k <= n
  {
    if n == 0 then {} else Upto(n - 1) + {n}
  }

  lemma SubsetSize(a: set<int>, b: set<int>)
    requires a <= b
    ensures |a| <= |b|
  {
    assert b == a + (b - a);
  }

  /** At least once, and never more calls than claims: a published event was stored by the broker, and the Publish calls
      made for an event never exceed its attempts. */
  lemma AtLeastOnceWithinAttempts(w: World, id: Id)
    requires Reachable(w) && id in w.rows
    ensures w.rows[id].publishedAt.Some? ==> exists k :: 0 <= k < |w.log| && w.log[k].id == id && w.log[k].stored
    ensures Calls(w.log, id) <= w.rows[id].attempts
  {
    ReachableInv(w);
    CallsAreNumbers(w.log, id);
    assert w.rows[id].attempts >= 0;
    SubsetSize(Numbers(w.log, id), Upto(w.rows[id].attempts));
  }

  /** A published row never changes again. */
  lemma {:induction false} PublishedIsFinal(w: World, acts: seq<Act>, id: Id)
    requires id in w.rows && w.rows[id].publishedAt.Some?
    ensures id in Exec(w, acts).rows && Exec(w, acts).rows[id] == w.rows[id]
    decreases |acts|
  {
    if acts != [] {
      var before := Exec(w, acts[..|acts| - 1]);
      PublishedIsFinal(w, acts[..|acts| - 1], id);
      StepOnRow(before, acts[|acts| - 1], id);
    }
  }

  // ---- content ----

  /** What an event says and when it was made never changes, in any run. */
  lemma {:induction false} EventsAreImmutable(w: World, acts: seq<Act>, id: Id)
    requires id in w.rows
    ensures id in Exec(w, acts).rows && SameEvent(w.rows[id], Exec(w, acts).rows[id])
    decreases |acts|
  {
    if acts != [] {
      EventsAreImmutable(w, acts[..|acts| - 1], id);
      StepOnRow(Exec(w, acts[..|acts| - 1]), acts[|acts| - 1], id);
    }
  }

  /** The events in hand and the messages sent say what their rows say. */
  ghost predicate ContentInv(w: World) {
    && (forall t: Tid, e :: t in w.runs && e in TodoOf(w.runs[t].pc) ==>
          e.id in w.rows && e.content == ContentOf(w.rows[e.id]))
    && (forall k :: 0 <= k < |w.log| ==> w.log[k].id in w.rows && w.log[k].content == ContentOf(w.rows[w.log[k].id]))
  }

  lemma RowKeepsContent(w: World, a: Act, id: Id)
    requires id in w.rows
    ensures id in Step(w, a).rows && ContentOf(Step(w, a).rows[id]) == ContentOf(w.rows[id])
  {
    StepOnRow(w, a, id);
  }

  lemma TodoKeepsContent(w: World, a: Act, t: Tid, e: Event)
    requires Inv(w) && ContentInv(w) && t in Step(w, a).runs && e in TodoOf(Step(w, a).runs[t].pc)
    ensures e.id in Step(w, a).rows && e.content == ContentOf(Step(w, a).rows[e.id])
  {
    TodoAfter(w, a, t, e);
    if a.Claims? && Proceeds(w, a, t, Step(w, a).runs[t].pc) {
      var todo := TodoOf(Step(w, a).runs[t].pc);
      var k :| 0 <= k < |todo| && todo[k] == e;
      assert e == EventOf(Step(w, a).rows, a.order[k]);
    } else {
      RowKeepsContent(w, a, e.id);
    }
  }

  lemma LogKeepsContent(w: World, a: Act, k: nat)
    requires ContentInv(w) && k < |LogAfter(w, a)|
    ensures var d, rows := LogAfter(w, a)[k], Step(w, a).rows; d.id in rows && d.content == ContentOf(rows[d.id])
  {
    if k == |w.log| { assert w.runs[a.t].pc.todo[0] in TodoOf(w.runs[a.t].pc); }
    RowKeepsContent(w, a, LogAfter(w, a)[k].id);
  }

  lemma ContentKept(w: World, a: Act)
    requires Inv(w) && ContentInv(w)
    ensures ContentInv(Step(w, a))
  {
    var w' := Step(w, a);
    forall t: Tid, e | t in w'.runs && e in TodoOf(w'.runs[t].pc)
      ensures e.id in w'.rows && e.content == ContentOf(w'.rows[e.id])
    {
      TodoKeepsContent(w, a, t, e);
    }
    StepOnLog(w, a);
    forall k | 0 <= k < |LogAfter(w, a)|
      ensures var d := LogAfter(w, a)[k]; d.id in w'.rows && d.content == ContentOf(w'.rows[d.id])
    {
      LogKeepsContent(w, a, k);
    }
  }

  lemma {:induction false} ContentAlways(w0: World, acts: seq<Act>)
    requires Init(w0)
    ensures ContentInv(Exec(w0, acts))
    decreases |acts|
  {
    if acts != [] {
      ContentAlways(w0, acts[..|acts| - 1]);
      AlwaysInv(w0, acts[..|acts| - 1]);
      ContentKept(Exec(w0, acts[..|acts| - 1]), acts[|acts| - 1]);
    }
  }

  /** Every message given to the broker says exactly what was enqueued under its identifier. */
  lemma DeliveredAsEnqueued(w: World, k: nat)
    requires Reachable(w) && k < |w.log|
    ensures w.log[k].id in w.rows && w.log[k].content == ContentOf(w.rows[w.log[k].id])
  {
    var w0, acts :| Init(w0) && w == Exec(w0, acts);
    ContentAlways(w0, acts);
  }

  // ---- fencing ----

  /** No claim in the run takes row id for `owner`. */
  ghost predicate NeverClaims(w: World, acts: seq<Act>, id: Id, owner: string) {
    forall k :: 0 <= k < |acts| ==>
      var v := Exec(w, acts[..k]);
      !(ClaimTakes(v, acts[k], id) && TrimSpace(v.runs[acts[k].t].owner) == owner)
  }

  /** An owner who does not hold a row cannot settle it, and the attempt changes nothing. */
  lemma NonHolderCannotSettle(rows: Table, owner: string, e: Event, ans: Answer, at: Time, now: Time)
    requires e.id in rows && rows[e.id].lockedBy != Some(owner)
    ensures Settle(rows, owner, e, ans, at, now) == (rows, if Refused(ans) then Invalid else ClaimLost)
  {
  }

  /** Once an owner has lost a row, every settlement it tries is ErrClaimLost (or refused before the database is asked)
      and changes nothing, however the run goes on, until a claim takes the row for that owner again. */
  lemma {:induction false} LostStaysLost(w: World, acts: seq<Act>, id: Id, owner: string)
    requires id in w.rows && w.rows[id].lockedBy != Some(owner) && NeverClaims(w, acts, id, owner)
    ensures id in Exec(w, acts).rows && Exec(w, acts).rows[id].lockedBy != Some(owner)
    ensures forall e: Event, ans, at, now :: e.id == id ==>
              Settle(Exec(w, acts).rows, owner, e, ans, at, now) ==
              (Exec(w, acts).rows, if Refused(ans) then Invalid else ClaimLost)
    decreases |acts|
  {
    if acts != [] {
      var init := acts[..|acts| - 1];
      assert forall k :: 0 <= k < |init| ==> acts[..k] == init[..k];
      LostStaysLost(w, init, id, owner);
      StepOnRow(Exec(w, init), acts[|acts| - 1], id);
    }
    forall e: Event, ans, at, now | e.id == id
      ensures Settle(Exec(w, acts).rows, owner, e, ans, at, now) ==
              (Exec(w, acts).rows, if Refused(ans) then Invalid else ClaimLost)
    {
      NonHolderCannotSettle(Exec(w, acts).rows, owner, e, ans, at, now);
    }
  }

  /** A takeover puts the row out of the old holder's reach. */
  lemma TakeoverDispossesses(w: World, a: Act, id: Id, owner: string)
    requires ClaimTakes(w, a, id) && w.rows[id].lockedBy == Some(owner) && TrimSpace(w.runs[a.t].owner) != owner
    ensures id in Step(w, a).rows && Step(w, a).rows[id].lockedBy != Some(owner)
  {
    StepOnRow(w, a, id);
  }

  /** A lock is respected for a minute: a claim over a holder comes later than its lock time plus the lock age. */
  lemma TakeoverNeedsAge(w: World, a: Act, id: Id)
    requires Reachable(w) && ClaimTakes(w, a, id) && w.rows[id].lockedAt.Some?
    ensures w.rows[id].lockedAt.value + LOCK_AGE < w.clock
  {
    ReachableInv(w);
    ClaimFindsAge(w, a, id);
  }

  /** No settlement of row id goes through in the run. */
  ghost predicate NeverSettles(w: World, acts: seq<Act>, id: Id) {
    forall k :: 0 <= k < |acts| ==> !SettleTakes(Exec(w, acts[..k]), acts[k], id)
  }

  /** The row as a claim at time c left it. */
  predicate LockedSince(r: Row, owner: string, c: Time, attempts: int) {
    Open(r) && r.lockedAt == Some(c) && r.lockedBy == Some(owner) && r.attempts == attempts
  }

  lemma ClaimFindsAge(w: World, a: Act, id: Id)
    requires Inv(w) && id in w.rows
    ensures ClaimTakes(w, a, id) && w.rows[id].lockedAt.Some? ==> w.rows[id].lockedAt.value + 60_000_000 < w.clock
  {
    if ClaimTakes(w, a, id) { assert RunOk(w, w.runs[a.t].pc); }
  }

  lemma YoungLockHolds(w: World, a: Act, id: Id, owner: string, c: Time, attempts: int)
    requires Inv(w) && id in w.rows && LockedSince(w.rows[id], owner, c, attempts) && w.clock <= c + 60_000_000
    requires !SettleTakes(w, a, id)
    ensures !ClaimTakes(w, a, id) && id in Step(w, a).rows && Step(w, a).rows[id] == w.rows[id]
  {
    ClaimFindsAge(w, a, id);
    StepOnRow(w, a, id);
  }

  lemma NeverSettlesUpTo(w: World, acts: seq<Act>, id: Id)
    requires NeverSettles(w, acts, id) && acts != []
    ensures NeverSettles(w, acts[..|acts| - 1], id)
    ensures !SettleTakes(Exec(w, acts[..|acts| - 1]), acts[|acts| - 1], id)
  {
    var init := acts[..|acts| - 1];
    assert forall k :: 0 <= k < |init| ==> acts[..k] == init[..k] && acts[k] == init[k];
  }

  lemma LockLastsOn(w: World, a: Act, id: Id, owner: string, c: Time, attempts: int)
    requires Reachable(w) && id in w.rows && LockedSince(w.rows[id], owner, c, attempts) && w.clock <= c + 60_000_000
    requires !SettleTakes(w, a, id)
    ensures id in Step(w, a).rows && Step(w, a).rows[id] == w.rows[id]
  {
    ReachableInv(w);
    YoungLockHolds(w, a, id, owner, c, attempts);
  }

  lemma {:induction false} ReachableRun(w: World, acts: seq<Act>)
    requires Reachable(w)
    ensures Reachable(Exec(w, acts))
    decreases |acts|
  {
    if acts != [] {
      ReachableRun(w, acts[..|acts| - 1]);
      ReachableStep(Exec(w, acts[..|acts| - 1]), acts[|acts| - 1]);
    }
  }

  lemma ClockBefore(w: World, acts: seq<Act>)
    requires acts != []
    ensures Exec(w, acts[..|acts| - 1]).clock <= Exec(w, acts).clock
  {
    LogGrows(Exec(w, acts[..|acts| - 1]), acts[|acts| - 1]);
  }

  lemma {:induction false} LockLasts(w: World, acts: seq<Act>, id: Id, owner: string, c: Time, attempts: int)
    requires Reachable(w) && id in w.rows && LockedSince(w.rows[id], owner, c, attempts)
    requires NeverSettles(w, acts, id) && Exec(w, acts).clock <= c + 60_000_000
    ensures id in Exec(w, acts).rows && Exec(w, acts).rows[id] == w.rows[id]
    decreases |acts|
  {
    if acts != [] {
      var init := acts[..|acts| - 1];
      NeverSettlesUpTo(w, acts, id);
      ClockBefore(w, acts);
      LockLasts(w, init, id, owner, c, attempts);
      ReachableRun(w, init);
      LockLastsOn(Exec(w, init), acts[|acts| - 1], id, owner, c, attempts);
    }
  }

  lemma ReachableStep(w: World, a: Act)
    requires Reachable(w)
    ensures Reachable(Step(w, a))
  {
    var w0, acts :| Init(w0) && w == Exec(w0, acts);
    assert (acts + [a])[..|acts|] == acts;
    assert Step(w, a) == Exec(w0, acts + [a]);
  }

  /** A claim locks its row for a minute from the moment it is made: until the clock has passed that minute, or the
      claim is settled, the row stays exactly as claimed, whatever runs, and no claim takes it again. */
  lemma ClaimLocksForAMinute(w: World, a: Act, id: Id, later: seq<Act>, next: Act)
    requires Reachable(w) && ClaimTakes(w, a, id) && NeverSettles(Step(w, a), later, id)
    requires Exec(Step(w, a), later).clock <= w.clock + 60_000_000
    ensures var owner, v := TrimSpace(w.runs[a.t].owner), Exec(Step(w, a), later);
            && id in v.rows && LockedSince(v.rows[id], owner, w.clock, w.rows[id].attempts + 1)
            && !ClaimTakes(v, next, id)
  {
    var owner, c, n := TrimSpace(w.runs[a.t].owner), w.clock, w.rows[id].attempts + 1;
    ReachableInv(w);
    StepOnRow(w, a, id);
    ReachableStep(w, a);
    LockLasts(Step(w, a), later, id, owner, c, n);
    ReachableRun(Step(w, a), later);
    var v := Exec(Step(w, a), later);
    ReachableInv(v);
    ClaimFindsAge(v, next, id);
  }

  /** Locks carry trimmed names only, so a relay whose owner has surrounding blanks never settles anything. */
  lemma BlankedOwnerNeverSettles(w: World, owner: string, e: Event, ans: Answer, at: Time, now: Time)
    requires Reachable(w) && !Trimmed(owner)
    ensures Settle(w.rows, owner, e, ans, at, now) == (w.rows, if Refused(ans) then Invalid else ClaimLost)
  {
    ReachableInv(w);
    if e.id in w.rows {
      assert LockNamed(w.rows[e.id]);
      NonHolderCannotSettle(w.rows, owner, e, ans, at, now);
    }
  }

  // ---- one RunOnce at a time per owner ----

  predicate NameFree(w: World, owner: string) {
    forall t: Tid :: t in w.runs ==> TrimSpace(w.runs[t].owner) != TrimSpace(owner)
  }

  /** The run never starts a RunOnce for an owner that has one under way. */
  ghost predicate Orderly(w: World, acts: seq<Act>) {
    forall k :: 0 <= k < |acts| && acts[k].Starts? ==> NameFree(Exec(w, acts[..k]), acts[k].owner)
  }

  ghost predicate NamesDiffer(w: World) {
    forall t: Tid, u: Tid :: t in w.runs && u in w.runs && t != u ==>
      TrimSpace(w.runs[t].owner) != TrimSpace(w.runs[u].owner)
  }

  /** Whoever appears as the holder made the latest claim: its event still describes the row. */
  predicate Current(w: World, owner: string, e: Event) {
    e.id in w.rows && (w.rows[e.id].lockedBy == Some(owner) ==>
                         w.rows[e.id].attempts == e.attempts && w.rows[e.id].failures == e.failures)
  }

  ghost predicate FenceInv(w: World) {
    && NamesDiffer(w)
    && (forall t: Tid, e :: t in w.runs && e in TodoOf(w.runs[t].pc) ==> Current(w, w.runs[t].owner, e))
  }

  lemma NamesStayDifferent(w: World, a: Act)
    requires NamesDiffer(w) && (a.Starts? ==> NameFree(w, a.owner))
    ensures NamesDiffer(Step(w, a))
  {
    var w' := Step(w, a);
    forall t: Tid, u: Tid | t in w'.runs && u in w'.runs && t != u
      ensures TrimSpace(w'.runs[t].owner) != TrimSpace(w'.runs[u].owner)
    {
      StepOnRun(w, a, t);
      StepOnRun(w, a, u);
    }
  }

  /** The step of another owner, or a settlement of another event, leaves the event current. */
  lemma CurrentStays(w: World, a: Act, owner: string, e: Event)
    requires Current(w, owner, e) && !(ClaimTakes(w, a, e.id) && TrimSpace(w.runs[a.t].owner) == owner)
    ensures Current(Step(w, a), owner, e)
  {
    StepOnRow(w, a, e.id);
  }

  lemma TodoAfter(w: World, a: Act, t: Tid, e: Event)
    requires RunInv(w) && t in Step(w, a).runs && e in TodoOf(Step(w, a).runs[t].pc)
    ensures (t in w.runs && e in TodoOf(w.runs[t].pc) && !(a.Claims? && a.t == t && w.runs[t].pc.Claiming?))
            || (a.Claims? && Proceeds(w, a, t, Step(w, a).runs[t].pc))
  {
    StepOnRun(w, a, t);
  }

  lemma OwnClaimIsCurrent(w: World, a: Act, t: Tid, e: Event, owner: string)
    requires a.Claims? && t in Step(w, a).runs && Proceeds(w, a, t, Step(w, a).runs[t].pc)
    requires e in TodoOf(Step(w, a).runs[t].pc)
    ensures Current(Step(w, a), owner, e)
  {
    var todo := TodoOf(Step(w, a).runs[t].pc);
    var k :| 0 <= k < |todo| && todo[k] == e;
    assert e == EventOf(Step(w, a).rows, a.order[k]);
  }

  lemma FenceKept(w: World, a: Act)
    requires Inv(w) && FenceInv(w) && (a.Starts? ==> NameFree(w, a.owner))
    ensures FenceInv(Step(w, a))
  {
    var w' := Step(w, a);
    NamesStayDifferent(w, a);
    forall t: Tid, e | t in w'.runs && e in TodoOf(w'.runs[t].pc) ensures Current(w', w'.runs[t].owner, e) {
      TodoAfter(w, a, t, e);
      if a.Claims? && Proceeds(w, a, t, w'.runs[t].pc) {
        OwnClaimIsCurrent(w, a, t, e, w'.runs[t].owner);
      } else {
        StepOnRun(w, a, t);
        NotOwnName(w, a, t, e);
        CurrentStays(w, a, w.runs[t].owner, e);
      }
    }
  }

  /** A claim that is not run t's own is not made in t's name. */
  lemma NotOwnName(w: World, a: Act, t: Tid, e: Event)
    requires NamesDiffer(w) && t in w.runs && e in TodoOf(w.runs[t].pc)
    ensures !(ClaimTakes(w, a, e.id) && TrimSpace(w.runs[a.t].owner) == w.runs[t].owner)
  {
    if ClaimTakes(w, a, e.id) {
      TrimSpaceTrims(w.runs[a.t].owner);
      TrimSpaceFixes(w.runs[t].owner);
    }
  }

  lemma {:induction false} OrderlyRuns(w0: World, acts: seq<Act>)
    requires Init(w0) && Orderly(w0, acts)
    ensures Inv(Exec(w0, acts)) && FenceInv(Exec(w0, acts))
    decreases |acts|
  {
    AlwaysInv(w0, acts);
    if acts != [] {
      var init := acts[..|acts| - 1];
      assert forall k :: 0 <= k < |init| ==> acts[..k] == init[..k] && acts[k] == init[k];
      OrderlyRuns(w0, init);
      FenceKept(Exec(w0, init), acts[|acts| - 1]);
    }
  }

  /** With one RunOnce at a time per owner, whatever a run settles is the very claim it made: the row's attempts are
      those it was given, so no other claim came between. */
  lemma OnlyTheLatestClaimSettles(w0: World, acts: seq<Act>, a: Act, id: Id)
    requires Init(w0) && Orderly(w0, acts) && SettleTakes(Exec(w0, acts), a, id)
    ensures var w := Exec(w0, acts);
            var e := w.runs[a.t].pc.todo[0];
            e.attempts == w.rows[id].attempts && e.failures == w.rows[id].failures
  {
    OrderlyRuns(w0, acts);
    var w := Exec(w0, acts);
    assert w.runs[a.t].pc.todo[0] in TodoOf(w.runs[a.t].pc);
  }

  /** No claim blocks an event for ever: once due and unlocked, or a minute past its lock, an open row can be claimed by
      any relay with a non-blank owner, however the earlier holder ended. */
  lemma AbandonedRowsComeBack(w: World, id: Id, t: Tid, owner: string)
    requires id in w.rows && Open(w.rows[id]) && w.rows[id].availableAt <= w.clock
    requires w.rows[id].lockedAt.Some? ==> w.rows[id].lockedAt.value + LOCK_AGE < w.clock
    requires t !in w.runs && TrimSpace(owner) != ""
    ensures var w' := Step(Step(w, Starts(t, owner)), Claims(t, [id], Fine));
            && id in w'.rows && w'.rows[id] == ClaimRow(w.rows[id], TrimSpace(owner), w.clock)
            && t in w'.runs && w'.runs[t].pc == Working([EventOf(w'.rows, id)])
  {
    var w1, a := Step(w, Starts(t, owner)), Claims(t, [id], Fine);
    assert ClaimTakes(w1, a, id);
    StepOnRow(w1, a, id);
    var w' := Step(w1, a);
    assert w'.runs[t].pc.todo[0] == EventOf(w'.rows, id);
  }

  // ---- backoff ----

  /** A released row is left alone until its time: as long as the clock is before available_at, nothing changes it. */
  lemma {:induction false} NotBeforeItsTime(w: World, acts: seq<Act>, id: Id)
    requires id in w.rows && HasStatus(w.rows[id], Pending) && Exec(w, acts).clock < w.rows[id].availableAt
    ensures id in Exec(w, acts).rows && Exec(w, acts).rows[id] == w.rows[id]
    decreases |acts|
  {
    if acts != [] {
      var before := Exec(w, acts[..|acts| - 1]);
      LogGrows(before, acts[|acts| - 1]);
      NotBeforeItsTime(w, acts[..|acts| - 1], id);
      StepOnRow(before, acts[|acts| - 1], id);
    }
  }

  /** Backoff over whole runs: when a failed event that had f failures is released, with its next attempt computed at
      time `at`, the row stays as it is until at + 2^min(f, 10) seconds, whatever happens meanwhile. */
  lemma BackoffHolds(w0: World, acts: seq<Act>, a: Act, id: Id, later: seq<Act>)
    requires Init(w0) && Orderly(w0, acts) && SettleTakes(Exec(w0, acts), a, id)
    requires var ans := Exec(w0, acts).runs[a.t].pc.ans; ans.Failed? && ans.error.permanent != Some(true)
    ensures var w, w' := Exec(w0, acts), Step(Exec(w0, acts), a);
            var f, at := w.rows[id].failures, w.runs[a.t].pc.at;
            && at <= w.clock && f >= 0
            && id in w'.rows && HasStatus(w'.rows[id], Pending) && w'.rows[id].failures == f + 1
            && w'.rows[id].availableAt == at + Pow2(if f > 10 then 10 else f) * SECOND
            && (Exec(w', later).clock < w'.rows[id].availableAt ==>
                  id in Exec(w', later).rows && Exec(w', later).rows[id] == w'.rows[id])
  {
    var w := Exec(w0, acts);
    OrderlyRuns(w0, acts);
    OnlyTheLatestClaimSettles(w0, acts, a, id);
    StepOnRow(w, a, id);
    assert RunOk(w, w.runs[a.t].pc) && RowOk(w.rows[id]);
    var w' := Step(w, a);
    if Exec(w', later).clock < w'.rows[id].availableAt { NotBeforeItsTime(w', later, id); }
  }
}
