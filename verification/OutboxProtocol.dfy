/** Any number of relays, crashing and restarting at will, over one outbox table and one broker
    (internal/platform/outbox/relay.go, repository.go). Each SQL statement and each publish is one step. */
module OutboxProtocol {
  import opened Common
  import opened Outbox
  import opened OutboxRelay

  type Tid = nat

  /** Where a RunOnce stands: about to claim, about to publish the head of its list, or with the broker's answer
      on it. */
  datatype Pc = Claiming(stale: Time) | Working(todo: seq<Event>) | Answered(todo: seq<Event>, ans: Answer, at: Time)

  datatype RunState = RunState(owner: string, pc: Pc)

  /** One Publish call: for which claim of which event, with what content, and whether the broker stored the message. */
  datatype Delivery = Delivery(id: Id, n: int, content: Content, stored: bool)

  datatype World = World(
    rows: Table, clock: Time, runs: map<Tid, RunState>,
    /** every Publish call made */
    log: seq<Delivery>,
    /** how often a locked row was claimed over its holder */
    takeovers: map<Id, nat>)

  /** A database call may fail before it takes effect, or take effect and lose the reply. */
  datatype Fault = Fine | Unsent | Unheard

  datatype Act =
    | Tick(d: nat)
    | Enqueues(e: NewEvent, generated: Id)
    | Redrives(id: Id, availableAt: Time)
    | Starts(t: Tid, owner: string)
    | Claims(t: Tid, order: seq<Id>, fault: Fault)
    | Publishes(t: Tid, ans: Answer, stored: bool)
    | Settles(t: Tid, fault: Fault)
    | Crashes(t: Tid)

  function Takeovers(w: World, id: Id): nat {
    if id in w.takeovers then w.takeovers[id] else 0
  }

  function End(w: World, t: Tid): World {
    w.(runs := w.runs - {t})
  }

  function Go(w: World, t: Tid, pc: Pc): World
    requires t in w.runs
  {
    w.(runs := w.runs[t := w.runs[t].(pc := pc)])
  }

  /** The choices open to ClaimBatch: since rows locked by other transactions are skipped, any few eligible rows. */
  predicate MayClaim(w: World, stale: Time, order: seq<Id>) {
    |order| <= BATCH_SIZE && (forall i, j :: 0 <= i < j < |order| ==> order[i] != order[j])
    && forall id :: id in order ==> id in w.rows && Eligible(w.rows[id], w.clock, stale)
  }

  function ClaimEffect(w: World, owner: string, order: seq<Id>): World {
    w.(rows := Claim(w.rows, Elems(order), TrimSpace(owner), w.clock),
       takeovers := map id | id in w.rows ::
                      Takeovers(w, id) + if id in order && w.rows[id].lockedAt.Some? then 1 else 0)
  }

  function EventsOf(rows: Table, order: seq<Id>): (r: seq<Event>)
    requires forall id :: id in order ==> id in rows
    ensures |r| == |order| && forall k :: 0 <= k < |r| ==> r[k] == EventOf(rows, order[k])
  {
    if order == [] then [] else [EventOf(rows, order[0])] + EventsOf(rows, order[1..])
  }

  function ClaimStep(w: World, t: Tid, order: seq<Id>, fault: Fault): (r: World) {
    if t !in w.runs || !w.runs[t].pc.Claiming? then w
    else if TrimSpace(w.runs[t].owner) == "" || fault.Unsent? then End(w, t)
    else if !MayClaim(w, w.runs[t].pc.stale, order) then w
    else
      var w1 := ClaimEffect(w, w.runs[t].owner, order);
      if fault.Fine? then Go(w1, t, Working(EventsOf(w1.rows, order))) else End(w1, t)
  }

  function PublishStep(w: World, t: Tid, ans: Answer, stored: bool): (r: World) {
    if t !in w.runs || !w.runs[t].pc.Working? || (ans.Accepted? && !stored) then w
    else
      var todo := w.runs[t].pc.todo;
      if todo == [] then End(w, t)
      else
        var d := Delivery(todo[0].id, todo[0].attempts, todo[0].content, stored);
        Go(w.(log := w.log + [d]), t, Answered(todo, ans, w.clock))
  }

  function SettleStep(w: World, t: Tid, fault: Fault): (r: World) {
    if t !in w.runs || !w.runs[t].pc.Answered? || w.runs[t].pc.todo == [] then w
    else if fault.Unsent? then End(w, t)
    else
      var Answered(todo, ans, at) := w.runs[t].pc;
      var (rows, res) := Settle(w.rows, w.runs[t].owner, todo[0], ans, at, w.clock);
      var w1 := w.(rows := rows);
      if fault.Fine? && res == Done then Go(w1, t, Working(todo[1..])) else End(w1, t)
  }

  function Step(w: World, a: Act): (r: World) {
    match a
    case Tick(d) => w.(clock := w.clock + d)
    case Enqueues(e, generated) => w.(rows := Enqueue(w.rows, e, generated, w.clock).0)
    case Redrives(id, availableAt) => w.(rows := Redrive(w.rows, id, availableAt).0)
    case Starts(t, owner) =>
      if t in w.runs then w else w.(runs := w.runs[t := RunState(owner, Claiming(w.clock - LOCK_AGE))])
    case Claims(t, order, fault) => ClaimStep(w, t, order, fault)
    case Publishes(t, ans, stored) => PublishStep(w, t, ans, stored)
    case Settles(t, fault) => SettleStep(w, t, fault)
    case Crashes(t) => End(w, t)
  }

  function Exec(w: World, acts: seq<Act>): (r: World) {
    if acts == [] then w else Step(Exec(w, acts[..|acts| - 1]), acts[|acts| - 1])
  }

  ghost predicate Init(w: World) {
    w.rows == map[] && w.runs == map[] && w.log == [] && w.takeovers == map[]
  }

  ghost predicate Reachable(w: World) {
    exists w0, acts :: Init(w0) && w == Exec(w0, acts)
  }

  // ---- what a step does to one row ----

  /** The step is a claim that takes row id. */
  predicate ClaimTakes(w: World, a: Act, id: Id) {
    && a.Claims? && a.t in w.runs && w.runs[a.t].pc.Claiming? && TrimSpace(w.runs[a.t].owner) != "" && !a.fault.Unsent?
    && MayClaim(w, w.runs[a.t].pc.stale, a.order) && id in a.order && id in w.rows
  }

  /** The step is a settlement of row id that goes through. */
  predicate SettleTakes(w: World, a: Act, id: Id) {
    && a.Settles? && a.t in w.runs && w.runs[a.t].pc.Answered? && w.runs[a.t].pc.todo != [] && !a.fault.Unsent?
    && w.runs[a.t].pc.todo[0].id == id && HeldBy(w.rows, id, w.runs[a.t].owner) && !Refused(w.runs[a.t].pc.ans)
  }

  predicate RedriveTakes(w: World, a: Act, id: Id) {
    a.Redrives? && a.id == id && id in w.rows && w.rows[id].publishedAt.None? && w.rows[id].quarantinedAt.Some?
  }

  function RowAfter(w: World, a: Act, id: Id): Row
    requires id in w.rows
  {
    var r := w.rows[id];
    if ClaimTakes(w, a, id) then ClaimRow(r, TrimSpace(w.runs[a.t].owner), w.clock)
    else if SettleTakes(w, a, id) then
      var Answered(todo, ans, at) := w.runs[a.t].pc;
      SettledRow(r, todo[0].failures, ans, at, w.clock)
    else if RedriveTakes(w, a, id) then RedriveRow(r, a.availableAt)
    else r
  }

  lemma SettleOnRow(w: World, a: Act, id: Id)
    requires a.Settles? && id in w.rows
    ensures id in Step(w, a).rows && Step(w, a).rows[id] == RowAfter(w, a, id)
  {
    if a.t in w.runs && w.runs[a.t].pc.Answered? && w.runs[a.t].pc.todo != [] {
      var Answered(todo, ans, at) := w.runs[a.t].pc;
      SettleOne(w.rows, w.runs[a.t].owner, todo[0], ans, at, w.clock);
    }
  }

  /** Rows never vanish, and a step changes a row only by a claim, a settlement or a redrive. */
  lemma StepOnRow(w: World, a: Act, id: Id)
    requires id in w.rows
    ensures id in Step(w, a).rows && Step(w, a).rows[id] == RowAfter(w, a, id)
  {
    if a.Settles? { SettleOnRow(w, a, id); }
  }

  // ---- the protocol's claims are the repository's ----

  lemma {:induction false} DistinctSize(s: seq<Id>)
    requires forall i, j :: 0 <= i < j < |s| ==> s[i] != s[j]
    ensures |Elems(s)| == |s|
    decreases |s|
  {
    if s != [] {
      var init, last := s[..|s| - 1], s[|s| - 1];
      DistinctSize(init);
      assert Elems(s) == Elems(init) + {last};
      assert last !in Elems(init);
    }
  }

  /** A list of distinct rows may be claimed exactly when ClaimBatch could pick it, for some set of rows that other
      transactions keep locked. */
  lemma ClaimsAreBatches(w: World, stale: Time, order: seq<Id>)
    requires forall i, j :: 0 <= i < j < |order| ==> order[i] != order[j]
    ensures MayClaim(w, stale, order) <==>
            exists skipped :: RightPick(w.rows, Elems(order), Candidates(w.rows, w.clock, stale, skipped), BATCH_SIZE)
  {
    DistinctSize(order);
    if MayClaim(w, stale, order) {
      var skipped := w.rows.Keys - Elems(order);
      assert Candidates(w.rows, w.clock, stale, skipped) == Elems(order);
      assert RightPick(w.rows, Elems(order), Candidates(w.rows, w.clock, stale, skipped), BATCH_SIZE);
    }
    if skipped :| RightPick(w.rows, Elems(order), Candidates(w.rows, w.clock, stale, skipped), BATCH_SIZE) {
      forall id | id in order ensures id in w.rows && Eligible(w.rows[id], w.clock, stale) {
        assert id in Elems(order);
      }
    }
  }
}
