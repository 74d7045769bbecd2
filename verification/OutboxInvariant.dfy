/** What every step of the outbox protocol keeps. */
module OutboxInvariant {
  import opened Common
  import opened Outbox
  import opened OutboxRelay
  import opened OutboxProtocol

  function One(b: bool): int {
    if b then 1 else 0
  }

  // ---- rows ----

  /** Every claim is accounted for: it failed, is still held, led to publication, or was taken over. */
  predicate Accounts(r: Row, takeovers: nat) {
    r.attempts == r.failures + One(r.lockedAt.Some?) + One(r.publishedAt.Some?) + takeovers
  }

  predicate LockNamed(r: Row) {
    r.lockedBy.Some? ==> r.lockedBy.value != "" && Trimmed(r.lockedBy.value)
  }

  ghost predicate RowInv(w: World) {
    forall id :: id in w.rows ==> RowOk(w.rows[id]) && Accounts(w.rows[id], Takeovers(w, id)) && LockNamed(w.rows[id])
  }

  /** No count is kept for a row that does not exist. */
  ghost predicate CountInv(w: World) {
    w.takeovers.Keys <= w.rows.Keys
  }

  // ---- runs and the broker ----

  /** The events a run holds. */
  function TodoOf(pc: Pc): seq<Event> {
    match pc
    case Claiming(_) => []
    case Working(todo) => todo
    case Answered(todo, _, _) => todo
  }

  /** The claims a run has not published yet. */
  function UnsentOf(pc: Pc): seq<Event> {
    match pc
    case Claiming(_) => []
    case Working(todo) => todo
    case Answered(todo, _, _) => if todo == [] then [] else todo[1..]
  }

  ghost predicate Sent(log: seq<Delivery>, id: Id, n: int) {
    exists k :: 0 <= k < |log| && log[k].id == id && log[k].n == n
  }

  ghost predicate Stored(log: seq<Delivery>, id: Id) {
    exists k :: 0 <= k < |log| && log[k].id == id && log[k].stored
  }

  ghost predicate Distinct(todo: seq<Event>) {
    forall i, j :: 0 <= i < j < |todo| ==> todo[i].id != todo[j].id
  }

  /** Every event is a claim its row has seen. */
  ghost predicate Backed(rows: Table, todo: seq<Event>) {
    forall e :: e in todo ==> e.id in rows && 1 <= e.attempts <= rows[e.id].attempts
  }

  ghost predicate NoneSent(log: seq<Delivery>, todo: seq<Event>) {
    forall e :: e in todo ==> !Sent(log, e.id, e.attempts)
  }

  ghost predicate RunOk(w: World, pc: Pc) {
    && Distinct(TodoOf(pc)) && Backed(w.rows, TodoOf(pc)) && NoneSent(w.log, UnsentOf(pc))
    && (pc.Claiming? ==> pc.stale <= w.clock - LOCK_AGE)
    && (pc.Answered? ==> pc.todo != [] && pc.at <= w.clock && (pc.ans.Accepted? ==> Stored(w.log, pc.todo[0].id)))
  }

  ghost predicate RunInv(w: World) {
    forall t: Tid :: t in w.runs ==> RunOk(w, w.runs[t].pc)
  }

  /** No claim is in the hands of two runs. */
  ghost predicate TicketInv(w: World) {
    forall t: Tid, u: Tid, e, f ::
      t in w.runs && u in w.runs && t != u && e in UnsentOf(w.runs[t].pc) && f in UnsentOf(w.runs[u].pc)
      ==> e.id != f.id || e.attempts != f.attempts
  }

  ghost predicate LogInv(w: World) {
    && (forall k :: 0 <= k < |w.log| ==> w.log[k].id in w.rows && 1 <= w.log[k].n <= w.rows[w.log[k].id].attempts)
    && (forall j, k :: 0 <= j < k < |w.log| ==> w.log[j].id != w.log[k].id || w.log[j].n != w.log[k].n)
  }

  ghost predicate PublishedInv(w: World) {
    forall id :: id in w.rows && w.rows[id].publishedAt.Some? ==> Stored(w.log, id)
  }

  ghost predicate Inv(w: World) {
    RowInv(w) && CountInv(w) && RunInv(w) && TicketInv(w) && LogInv(w) && PublishedInv(w)
  }

  lemma InitInv(w: World)
    requires Init(w)
    ensures Inv(w)
  {
  }

  // ---- rows ----

  lemma ClaimKeepsRow(r: Row, owner: string, now: Time, stale: Time, takeovers: nat)
    requires RowOk(r) && Accounts(r, takeovers) && Eligible(r, now, stale) && TrimSpace(owner) != ""
    ensures var r' := ClaimRow(r, TrimSpace(owner), now);
            RowOk(r') && Accounts(r', takeovers + One(r.lockedAt.Some?)) && LockNamed(r')
  {
    TrimSpaceTrims(owner);
  }

  lemma SettleKeepsRow(r: Row, f: int, ans: Answer, at: Time, now: Time, takeovers: nat)
    requires RowOk(r) && Accounts(r, takeovers) && Open(r) && r.lockedBy.Some? && !Refused(ans)
    ensures var r' := SettledRow(r, f, ans, at, now); RowOk(r') && Accounts(r', takeovers) && LockNamed(r')
  {
    if ans.Failed? && ans.error.permanent == Some(true) {
      QuarantineKeepsRow(r, Classify(ans.error).1, ans.error.text, now);
    }
  }

  lemma FreshRowOk(rows: Table, e: NewEvent, generated: Id, now: Time)
    requires Enqueue(rows, e, generated, now).1.Some?
    ensures RowOk(FreshRow(e, now)) && Accounts(FreshRow(e, now), 0) && LockNamed(FreshRow(e, now))
  {
  }

  lemma TakeoversAfter(w: World, a: Act, id: Id)
    requires id in w.rows
    ensures Takeovers(Step(w, a), id) == Takeovers(w, id) + One(w.rows[id].lockedAt.Some? && ClaimTakes(w, a, id))
  {
  }

  /** Only Enqueue adds a row, and it adds a fresh one. */
  lemma NewRow(w: World, a: Act, id: Id)
    requires id !in w.rows && id in Step(w, a).rows
    ensures a.Enqueues? && Enqueue(w.rows, a.e, a.generated, w.clock).1 == Some(id)
    ensures Step(w, a).rows[id] == FreshRow(a.e, w.clock)
    ensures Step(w, a).takeovers == w.takeovers
  {
    if a.Settles? && a.t in w.runs && w.runs[a.t].pc.Answered? && w.runs[a.t].pc.todo != [] {
      var Answered(todo, ans, at) := w.runs[a.t].pc;
      SettleOne(w.rows, w.runs[a.t].owner, todo[0], ans, at, w.clock);
    }
  }

  lemma RowAfterOk(w: World, a: Act, id: Id)
    requires RowInv(w) && id in w.rows
    ensures var r, n := RowAfter(w, a, id), Takeovers(Step(w, a), id); RowOk(r) && Accounts(r, n) && LockNamed(r)
  {
    var r := w.rows[id];
    TakeoversAfter(w, a, id);
    if ClaimTakes(w, a, id) {
      ClaimKeepsRow(r, w.runs[a.t].owner, w.clock, w.runs[a.t].pc.stale, Takeovers(w, id));
    } else if SettleTakes(w, a, id) {
      var Answered(todo, ans, at) := w.runs[a.t].pc;
      SettleKeepsRow(r, todo[0].failures, ans, at, w.clock, Takeovers(w, id));
    }
  }

  lemma RowsKept(w: World, a: Act)
    requires RowInv(w) && CountInv(w)
    ensures RowInv(Step(w, a))
  {
    var w' := Step(w, a);
    forall id | id in w'.rows
      ensures RowOk(w'.rows[id]) && Accounts(w'.rows[id], Takeovers(w', id)) && LockNamed(w'.rows[id])
    {
      if id in w.rows {
        StepOnRow(w, a, id);
        RowAfterOk(w, a, id);
      } else {
        NewRow(w, a, id);
        FreshRowOk(w.rows, a.e, a.generated, w.clock);
      }
    }
  }

  lemma KeysGrow(w: World, a: Act)
    ensures w.rows.Keys <= Step(w, a).rows.Keys
  {
    forall id | id in w.rows ensures id in Step(w, a).rows { StepOnRow(w, a, id); }
  }

  lemma CountsKept(w: World, a: Act)
    requires CountInv(w)
    ensures CountInv(Step(w, a))
  {
    KeysGrow(w, a);
  }

  // ---- counters and the log only grow ----

  lemma AttemptsGrow(w: World, a: Act, id: Id)
    requires id in w.rows
    ensures id in Step(w, a).rows && Step(w, a).rows[id].attempts >= w.rows[id].attempts
  {
    StepOnRow(w, a, id);
  }

  lemma LogGrows(w: World, a: Act)
    ensures w.log <= Step(w, a).log && Step(w, a).clock >= w.clock
  {
  }

  lemma StoredStays(log: seq<Delivery>, log': seq<Delivery>, id: Id)
    requires log <= log' && Stored(log, id)
    ensures Stored(log', id)
  {
    var k :| 0 <= k < |log| && log[k].id == id && log[k].stored;
    assert log'[k] == log[k];
  }

  /** The call a publish step makes. */
  predicate SendsNow(w: World, a: Act) {
    && a.Publishes? && a.t in w.runs && w.runs[a.t].pc.Working? && !(a.ans.Accepted? && !a.stored)
    && w.runs[a.t].pc.todo != []
  }

  function LogAfter(w: World, a: Act): seq<Delivery> {
    if SendsNow(w, a)
    then
      var e := w.runs[a.t].pc.todo[0];
      w.log + [Delivery(e.id, e.attempts, e.content, a.stored)]
    else w.log
  }

  lemma StepOnLog(w: World, a: Act)
    ensures Step(w, a).log == LogAfter(w, a)
  {
  }

  lemma LogBacked(w: World, a: Act, k: nat)
    requires LogInv(w) && RunInv(w) && k < |LogAfter(w, a)|
    ensures var d, rows := LogAfter(w, a)[k], Step(w, a).rows; d.id in rows && 1 <= d.n <= rows[d.id].attempts
  {
    if k == |w.log| {
      assert RunOk(w, w.runs[a.t].pc);
      assert w.runs[a.t].pc.todo[0] in TodoOf(w.runs[a.t].pc);
    }
    AttemptsGrow(w, a, LogAfter(w, a)[k].id);
  }

  lemma LogDistinct(w: World, a: Act)
    requires LogInv(w) && RunInv(w)
    ensures var log := LogAfter(w, a);
            forall j, k :: 0 <= j < k < |log| ==> log[j].id != log[k].id || log[j].n != log[k].n
  {
    if SendsNow(w, a) {
      var e := w.runs[a.t].pc.todo[0];
      assert RunOk(w, w.runs[a.t].pc) && e in UnsentOf(w.runs[a.t].pc);
      assert !Sent(w.log, e.id, e.attempts);
    }
  }

  lemma LogKept(w: World, a: Act)
    requires LogInv(w) && RunInv(w)
    ensures LogInv(Step(w, a))
  {
    StepOnLog(w, a);
    LogDistinct(w, a);
    forall k | 0 <= k < |LogAfter(w, a)|
      ensures var d, rows := LogAfter(w, a)[k], Step(w, a).rows; d.id in rows && 1 <= d.n <= rows[d.id].attempts
    {
      LogBacked(w, a, k);
    }
  }

  lemma PublishedKept(w: World, a: Act)
    requires PublishedInv(w) && RunInv(w)
    ensures PublishedInv(Step(w, a))
  {
    var w' := Step(w, a);
    LogGrows(w, a);
    forall id | id in w'.rows && w'.rows[id].publishedAt.Some? ensures Stored(w'.log, id) {
      if id in w.rows {
        StepOnRow(w, a, id);
        if w.rows[id].publishedAt.None? {
          assert SettleTakes(w, a, id) && RunOk(w, w.runs[a.t].pc);
        }
        StoredStays(w.log, w'.log, id);
      } else {
        NewRow(w, a, id);
      }
    }
  }

  // ---- runs ----

  /** The position of run t after the step, if it is the one that acts and goes on. */
  ghost predicate Proceeds(w: World, a: Act, t: Tid, pc: Pc) {
    match a
    case Starts(u, _) => u == t && t !in w.runs && pc == Claiming(w.clock - LOCK_AGE)
    case Claims(u, order, _) =>
      && u == t && (forall id :: id in order ==> ClaimTakes(w, a, id))
      && (forall id :: id in order ==> id in Step(w, a).rows) && NoDup(order)
      && pc == Working(EventsOf(Step(w, a).rows, order))
    case Publishes(u, ans, stored) => u == t && SendsNow(w, a) && pc == Answered(w.runs[t].pc.todo, ans, w.clock)
    case Settles(u, _) =>
      && u == t && t in w.runs && w.runs[t].pc.Answered? && w.runs[t].pc.todo != []
      && pc == Working(w.runs[t].pc.todo[1..])
    case _ => false
  }

  lemma StepOnRun(w: World, a: Act, t: Tid)
    requires t in Step(w, a).runs
    ensures (t in w.runs && Step(w, a).runs[t] == w.runs[t]) || Proceeds(w, a, t, Step(w, a).runs[t].pc)
    ensures t in w.runs ==> Step(w, a).runs[t].owner == w.runs[t].owner
    ensures t !in w.runs ==> a == Starts(t, Step(w, a).runs[t].owner)
  {
  }

  lemma BackedStays(w: World, a: Act, todo: seq<Event>)
    requires Backed(w.rows, todo)
    ensures Backed(Step(w, a).rows, todo)
  {
    forall e | e in todo ensures e.id in Step(w, a).rows && 1 <= e.attempts <= Step(w, a).rows[e.id].attempts {
      AttemptsGrow(w, a, e.id);
    }
  }

  lemma UnsentStays(w: World, a: Act, todo: seq<Event>)
    requires NoneSent(w.log, todo)
    requires SendsNow(w, a) ==>
               forall e :: e in todo ==>
                 e.id != w.runs[a.t].pc.todo[0].id || e.attempts != w.runs[a.t].pc.todo[0].attempts
    ensures NoneSent(Step(w, a).log, todo)
  {
    StepOnLog(w, a);
    var log' := Step(w, a).log;
    assert forall k :: 0 <= k < |w.log| ==> log'[k] == w.log[k];
    forall e | e in todo ensures !Sent(log', e.id, e.attempts) {
      assert !Sent(w.log, e.id, e.attempts);
    }
  }

  /** A position that was sound stays so, as long as the step does not publish one of its claims. */
  lemma RunOkStays(w: World, a: Act, pc: Pc)
    requires RunOk(w, pc)
    requires SendsNow(w, a) ==>
               forall e :: e in UnsentOf(pc) ==>
                 e.id != w.runs[a.t].pc.todo[0].id || e.attempts != w.runs[a.t].pc.todo[0].attempts
    ensures RunOk(Step(w, a), pc)
  {
    LogGrows(w, a);
    BackedStays(w, a, TodoOf(pc));
    UnsentStays(w, a, UnsentOf(pc));
    if pc.Answered? && pc.ans.Accepted? { StoredStays(w.log, Step(w, a).log, pc.todo[0].id); }
  }

  lemma TailOk(rows: Table, todo: seq<Event>)
    requires todo != [] && Distinct(todo) && Backed(rows, todo)
    ensures Distinct(todo[1..]) && Backed(rows, todo[1..])
    ensures forall e :: e in todo[1..] ==> e in todo && e.id != todo[0].id
  {
    var rest := todo[1..];
    assert forall k :: 0 <= k < |rest| ==> rest[k] == todo[k + 1];
    forall e | e in rest ensures e in todo && e.id != todo[0].id {
      var k :| 0 <= k < |rest| && rest[k] == e;
      assert todo[k + 1] == e;
    }
    forall i, j | 0 <= i < j < |rest| ensures rest[i].id != rest[j].id {
      assert todo[i + 1].id != todo[j + 1].id;
    }
  }

  lemma SmallerTodo(w: World, todo: seq<Event>, ans: Answer, at: Time)
    requires RunOk(w, Answered(todo, ans, at))
    ensures RunOk(w, Working(todo[1..]))
  {
    TailOk(w.rows, todo);
  }

  /** The claims just made are new: each carries its row's new count. */
  lemma ClaimedEvents(w: World, a: Act, t: Tid, pc: Pc)
    requires RowInv(w) && a.Claims? && Proceeds(w, a, t, pc)
    ensures forall e :: e in pc.todo ==>
              && e.id in w.rows && e.id in Step(w, a).rows
              && 1 <= e.attempts == w.rows[e.id].attempts + 1 == Step(w, a).rows[e.id].attempts
  {
    var w' := Step(w, a);
    forall e | e in pc.todo
      ensures e.id in w.rows && e.id in w'.rows
      ensures 1 <= e.attempts == w.rows[e.id].attempts + 1 == w'.rows[e.id].attempts
    {
      var k :| 0 <= k < |pc.todo| && pc.todo[k] == e;
      assert ClaimTakes(w, a, a.order[k]);
      StepOnRow(w, a, a.order[k]);
    }
  }

  lemma EventsDistinct(rows: Table, order: seq<Id>)
    requires NoDup(order) && forall id :: id in order ==> id in rows
    ensures Distinct(EventsOf(rows, order))
  {
    var todo := EventsOf(rows, order);
    forall i, j | 0 <= i < j < |todo| ensures todo[i].id != todo[j].id {
      assert todo[i].id == order[i] && todo[j].id == order[j];
    }
  }

  lemma ClaimedOk(w: World, a: Act, t: Tid, pc: Pc)
    requires RowInv(w) && LogInv(w) && a.Claims? && Proceeds(w, a, t, pc)
    ensures RunOk(Step(w, a), pc)
  {
    ClaimedEvents(w, a, t, pc);
    EventsDistinct(Step(w, a).rows, a.order);
    StepOnLog(w, a);
    forall e | e in pc.todo ensures !Sent(w.log, e.id, e.attempts) {}
  }

  lemma AnsweredOk(w: World, a: Act)
    requires RunInv(w) && SendsNow(w, a)
    ensures RunOk(Step(w, a), Answered(w.runs[a.t].pc.todo, a.ans, w.clock))
  {
    var todo := w.runs[a.t].pc.todo;
    assert RunOk(w, Working(todo));
    TailOk(w.rows, todo);
    BackedStays(w, a, todo);
    UnsentStays(w, a, todo[1..]);
    if a.ans.Accepted? { NowStored(w, a); }
  }

  lemma NowStored(w: World, a: Act)
    requires SendsNow(w, a) && a.ans.Accepted?
    ensures Stored(Step(w, a).log, w.runs[a.t].pc.todo[0].id)
  {
    StepOnLog(w, a);
    var d := Step(w, a).log[|w.log|];
    assert d.stored && d.id == w.runs[a.t].pc.todo[0].id;
  }

  lemma ActingRunOk(w: World, a: Act, t: Tid, pc: Pc)
    requires RowInv(w) && LogInv(w) && RunInv(w) && Proceeds(w, a, t, pc)
    ensures RunOk(Step(w, a), pc)
  {
    match a
    case Starts(_, _) =>
    case Claims(_, order, _) => ClaimedOk(w, a, t, pc);
    case Publishes(_, _, _) => AnsweredOk(w, a);
    case Settles(_, _) =>
      var Answered(todo, ans, at) := w.runs[t].pc;
      assert RunOk(w, w.runs[t].pc);
      SmallerTodo(w, todo, ans, at);
      RunOkStays(w, a, Working(todo[1..]));
  }

  lemma RunsKept(w: World, a: Act)
    requires RowInv(w) && LogInv(w) && RunInv(w) && TicketInv(w)
    ensures RunInv(Step(w, a))
  {
    var w' := Step(w, a);
    forall t: Tid | t in w'.runs ensures RunOk(w', w'.runs[t].pc) {
      StepOnRun(w, a, t);
      if t in w.runs && w'.runs[t] == w.runs[t] {
        OthersUnsent(w, a, t);
        RunOkStays(w, a, w.runs[t].pc);
      } else {
        ActingRunOk(w, a, t, w'.runs[t].pc);
      }
    }
  }

  /** Nobody else holds the claim that is being published. */
  lemma OthersUnsent(w: World, a: Act, t: Tid)
    requires TicketInv(w) && t in w.runs && t in Step(w, a).runs && Step(w, a).runs[t] == w.runs[t]
    ensures SendsNow(w, a) ==> forall e :: e in UnsentOf(w.runs[t].pc) ==>
              e.id != w.runs[a.t].pc.todo[0].id || e.attempts != w.runs[a.t].pc.todo[0].attempts
  {
    if SendsNow(w, a) {
      assert t != a.t;
      assert w.runs[a.t].pc.todo[0] in UnsentOf(w.runs[a.t].pc);
    }
  }

  /** A claim a run holds after the step is one it held before, or a new one. */
  lemma UnsentAfter(w: World, a: Act, t: Tid, e: Event)
    requires RowInv(w) && t in Step(w, a).runs && e in UnsentOf(Step(w, a).runs[t].pc)
    ensures (t in w.runs && e in UnsentOf(w.runs[t].pc))
            || (a.Claims? && a.t == t && e.id in w.rows && e.attempts == w.rows[e.id].attempts + 1)
  {
    StepOnRun(w, a, t);
    if Proceeds(w, a, t, Step(w, a).runs[t].pc) && a.Claims? {
      ClaimedEvents(w, a, t, Step(w, a).runs[t].pc);
    }
  }

  lemma TicketsKept(w: World, a: Act)
    requires Inv(w)
    ensures TicketInv(Step(w, a))
  {
    var w' := Step(w, a);
    forall t: Tid, u: Tid, e, f | t in w'.runs && u in w'.runs && t != u
                                  && e in UnsentOf(w'.runs[t].pc) && f in UnsentOf(w'.runs[u].pc)
      ensures e.id != f.id || e.attempts != f.attempts
    {
      UnsentAfter(w, a, t, e);
      UnsentAfter(w, a, u, f);
      if t in w.runs && e in UnsentOf(w.runs[t].pc) { UnsentIsPast(w, t, e); }
      if u in w.runs && f in UnsentOf(w.runs[u].pc) { UnsentIsPast(w, u, f); }
    }
  }

  lemma UnsentIsPast(w: World, t: Tid, e: Event)
    requires RunInv(w) && t in w.runs && e in UnsentOf(w.runs[t].pc)
    ensures e.id in w.rows && e.attempts <= w.rows[e.id].attempts
  {
    assert e in TodoOf(w.runs[t].pc) && RunOk(w, w.runs[t].pc);
  }

  // ---- every run ----

  lemma StepKeeps(w: World, a: Act)
    requires Inv(w)
    ensures Inv(Step(w, a))
  {
    RowsKept(w, a);
    CountsKept(w, a);
    RunsKept(w, a);
    TicketsKept(w, a);
    LogKept(w, a);
    PublishedKept(w, a);
  }

  lemma {:induction false} AlwaysInv(w0: World, acts: seq<Act>)
    requires Init(w0)
    ensures Inv(Exec(w0, acts))
    decreases |acts|
  {
    if acts == [] {
      InitInv(w0);
    } else {
      AlwaysInv(w0, acts[..|acts| - 1]);
      StepKeeps(Exec(w0, acts[..|acts| - 1]), acts[|acts| - 1]);
    }
  }

  lemma ReachableInv(w: World)
    requires Reachable(w)
    ensures Inv(w)
  {
    var w0, acts :| Init(w0) && w == Exec(w0, acts);
    AlwaysInv(w0, acts);
  }
}
