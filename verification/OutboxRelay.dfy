/** The outbox relay (internal/platform/outbox/relay.go, publisher.go): one RunOnce without interference.
    Several relays at once are in module OutboxProtocol. */
module OutboxRelay {
  import opened Common
  import opened Outbox

  const SECOND: Time := 1_000_000
  const LOCK_AGE: Time := 60 * SECOND
  const BATCH_SIZE: nat := 100

  /** A publish error: which of the three optional interfaces it implements, with what answers, and its text. */
  datatype PublishError = PublishError(
    code: Option<string>, permanent: Option<bool>, retryable: Option<bool>, text: string)

  datatype ErrorClass = Unknown | Retryable | Permanent

  /** Permanent wins over retryable, and a code is always given: the error's own when it has one. */
  function Classify(e: PublishError): (r: (ErrorClass, string))
    ensures r.0 == Permanent <==> e.permanent == Some(true)
    ensures r.0 == Retryable <==> e.permanent != Some(true) && e.retryable == Some(true)
    ensures r.1 != "" && (e.code == Some(r.1) || r.1 == "unknown")
    ensures e.code.Some? && e.code.value != "" ==> e.code == Some(r.1)
  {
    var code := if e.code.Some? && e.code.value != "" then e.code.value else "unknown";
    if e.permanent == Some(true) then (Permanent, code)
    else if e.retryable == Some(true) then (Retryable, code)
    else (Unknown, code)
  }

  // ---- backoff ----

  function RetryDelay(failures: int): Time {
    var f := if failures < 0 then 0 else if failures > 10 then 10 else failures;
    Pow2(f) * SECOND
  }

  lemma {:induction false} Pow2Monotone(a: nat, b: nat)
    requires a <= b
    ensures Pow2(a) <= Pow2(b)
    decreases b
  {
    if a < b { Pow2Monotone(a, b - 1); }
  }

  /** The delay grows with the failures and stays between 1 and 1024 seconds. */
  lemma DelayBounds(f: int, g: int)
    requires f <= g
    ensures SECOND <= RetryDelay(f) <= RetryDelay(g) <= 1024 * SECOND
    ensures 0 <= f < 10 ==> RetryDelay(f + 1) == 2 * RetryDelay(f)
    ensures RetryDelay(0) == SECOND && (g >= 10 ==> RetryDelay(g) == 1024 * SECOND)
  {
    var cf := if f < 0 then 0 else if f > 10 then 10 else f;
    var cg := if g < 0 then 0 else if g > 10 then 10 else g;
    Pow2Monotone(cf, cg);
    Pow2Monotone(cg, 10);
    assert Pow2(10) == 1024 by { assert Pow2(5) == 32; }
  }

  // ---- processEvent ----

  datatype Answer = Accepted | Failed(error: PublishError)

  /** What follows a publish: `at` is the relay's clock when it computes the next attempt, `now` the database's. */
  function Settle(rows: Table, owner: string, e: Event, ans: Answer, at: Time, now: Time): (r: (Table, Result)) {
    match ans
    case Accepted => Mark(rows, e.id, owner, now)
    case Failed(err) =>
      var (kind, code) := Classify(err);
      if kind == Permanent then Quarantine(rows, e.id, owner, code, err.text, now)
      else Release(rows, e.id, owner, at + RetryDelay(e.failures), err.text)
  }

  /** The row a settled event ends with; f is the failure count the relay read when it claimed. */
  function SettledRow(r: Row, f: int, ans: Answer, at: Time, now: Time): Row {
    match ans
    case Accepted => MarkRow(r, now)
    case Failed(err) =>
      if err.permanent == Some(true) then QuarantineRow(r, TrimSpace(Classify(err).1), TrimSpace(err.text), now)
      else ReleaseRow(r, at + RetryDelay(f), err.text)
  }

  /** Quarantine refuses a blank code or text. */
  predicate Refused(ans: Answer) {
    ans.Failed? && ans.error.permanent == Some(true)
    && (TrimSpace(Classify(ans.error).1) == "" || TrimSpace(ans.error.text) == "")
  }

  /** Settling touches no other row. It succeeds exactly when the row is still held and the answer can be recorded. */
  lemma SettleOne(rows: Table, owner: string, e: Event, ans: Answer, at: Time, now: Time)
    ensures var (rows', res) := Settle(rows, owner, e, ans, at, now);
            && (res == Done <==> HeldBy(rows, e.id, owner) && !Refused(ans))
            && (res == ClaimLost <==> !HeldBy(rows, e.id, owner) && !Refused(ans))
            && rows' == if res == Done then rows[e.id := SettledRow(rows[e.id], e.failures, ans, at, now)] else rows
  {
  }

  /** What each answer makes of a claimed event. Accepted: published now. A permanent error: quarantined now under the
      error's code and text, trimmed. Any other: pending again, due 2^min(f, 10) seconds after the relay's clock, f
      being the failures it read. The event itself, its attempts and its redrives stay. */
  lemma SettledAsAnswered(r: Row, f: int, ans: Answer, at: Time, now: Time)
    requires RowOk(r) && Open(r) && f >= 0
    ensures var r' := SettledRow(r, f, ans, at, now);
            && SameEvent(r, r') && r'.attempts == r.attempts && r'.redrives == r.redrives
            && (ans.Accepted? ==>
                  HasStatus(r', Published) && r'.publishedAt == Some(now) && r'.failures == r.failures)
            && (ans.Failed? && ans.error.permanent == Some(true) ==>
                  && HasStatus(r', Quarantined) && r'.quarantinedAt == Some(now) && r'.failures == r.failures + 1
                  && r'.quarantineCode == Some(TrimSpace(if ans.error.code.Some? && ans.error.code.value != ""
                                                         then ans.error.code.value else "unknown"))
                  && r'.quarantineReason == r'.lastError == Some(TrimSpace(ans.error.text)))
            && (ans.Failed? && ans.error.permanent != Some(true) ==>
                  && HasStatus(r', Pending) && r'.failures == r.failures + 1 && r'.lastError == Some(ans.error.text)
                  && r'.availableAt == at + Pow2(if f > 10 then 10 else f) * 1_000_000)
  {
  }

  // ---- RunOnce ----

  /** What one event of the loop meets: the broker's answer, the relay's clock when it computes the next attempt, and
      the database's when it records the result. */
  datatype Reply = Reply(ans: Answer, at: Time, now: Time)

  /** The loop of RunOnce: stop at the first event that cannot be settled. */
  function SettleAll(rows: Table, owner: string, events: seq<Event>, replies: Id -> Reply): (r: (Table, bool))
    decreases |events|
  {
    if events == [] then (rows, true)
    else
      var y := replies(events[0].id);
      var (rows', res) := Settle(rows, owner, events[0], y.ans, y.at, y.now);
      if res == Done then SettleAll(rows', owner, events[1..], replies) else (rows', false)
  }

  /** The batch as ClaimBatch leaves it: distinct events, held by the owner and described as the table has them. */
  ghost predicate Batch(rows: Table, owner: string, events: seq<Event>) {
    && (forall i, j :: 0 <= i < j < |events| ==> events[i].id != events[j].id)
    && (forall e :: e in events ==> HeldBy(rows, e.id, owner) && e == EventOf(rows, e.id))
  }

  lemma BatchTail(rows: Table, rows': Table, owner: string, events: seq<Event>)
    requires Batch(rows, owner, events) && events != []
    requires forall id :: id in rows && id != events[0].id ==> id in rows' && rows'[id] == rows[id]
    ensures Batch(rows', owner, events[1..])
  {
    forall e | e in events[1..] ensures HeldBy(rows', e.id, owner) && e == EventOf(rows', e.id) {
      var k :| 0 <= k < |events[1..]| && events[1..][k] == e;
      assert events[k + 1] == e && events[k + 1].id != events[0].id;
    }
  }

  /** How many events come before the first answer that Quarantine refuses. */
  function Recordable(events: seq<Event>, replies: Id -> Reply): (k: nat)
    ensures k <= |events| && (forall i :: 0 <= i < k ==> !Refused(replies(events[i].id).ans))
    ensures k < |events| ==> Refused(replies(events[k].id).ans)
    decreases |events|
  {
    if events == [] || Refused(replies(events[0].id).ans) then 0 else 1 + Recordable(events[1..], replies)
  }

  /** The row event e ends with, if it was settled. */
  function Recorded(rows: Table, e: Event, y: Reply): Row
    requires e.id in rows
  {
    SettledRow(rows[e.id], rows[e.id].failures, y.ans, y.at, y.now)
  }

  /** The first k events are settled, the others still claimed as before, and no other row has changed. */
  ghost predicate SettledUpTo(rows: Table, rows': Table, owner: string, events: seq<Event>, replies: Id -> Reply,
                              k: nat)
    requires k <= |events| && forall e :: e in events ==> e.id in rows
  {
    && rows'.Keys == rows.Keys
    && (forall e :: e in events[..k] ==> rows'[e.id] == Recorded(rows, e, replies(e.id)))
    && Batch(rows', owner, events[k..])
    && (forall id :: id in rows && id !in Ids(events[..k]) ==> rows'[id] == rows[id])
  }

  lemma SettledFirst(rows: Table, rows': Table, owner: string, events: seq<Event>, replies: Id -> Reply, k: nat)
    requires Batch(rows, owner, events) && 0 < k <= |events|
    requires var e := events[0];
             SettledUpTo(rows[e.id := Recorded(rows, e, replies(e.id))], rows', owner, events[1..], replies, k - 1)
    ensures SettledUpTo(rows, rows', owner, events, replies, k)
  {
    var e, rest := events[0], events[1..];
    FirstIsSettledOnce(events, k);
    assert e in events && rest[k - 1..] == events[k..];
    forall x | x in events[..k] ensures rows'[x.id] == Recorded(rows, x, replies(x.id)) {
      if x.id != e.id { assert x in rest[..k - 1]; }
    }
  }

  /** Among distinct events the first is settled only once. */
  lemma FirstIsSettledOnce(events: seq<Event>, k: nat)
    requires forall i, j :: 0 <= i < j < |events| ==> events[i].id != events[j].id
    requires 0 < k <= |events|
    ensures events[0].id !in Ids(events[1..][..k - 1])
    ensures Ids(events[..k]) == Ids(events[1..][..k - 1]) + {events[0].id}
    ensures forall e :: e in events[..k] <==> e == events[0] || e in events[1..][..k - 1]
  {
    var rest := events[1..][..k - 1];
    assert events[..k] == [events[0]] + rest;
    forall e | e in rest ensures e.id != events[0].id {
      var i :| 0 <= i < |rest| && rest[i] == e;
      assert events[i + 1] == e;
    }
  }

  /** An undisturbed RunOnce settles its events in order, as the broker answered, up to the first answer that Quarantine
      refuses. That event and those after it stay claimed, and no other row changes. */
  lemma {:induction false} UndisturbedRunSettles(rows: Table, owner: string, events: seq<Event>, replies: Id -> Reply)
    requires Batch(rows, owner, events)
    ensures var (rows', ok) := SettleAll(rows, owner, events, replies);
            var k := Recordable(events, replies);
            (ok <==> k == |events|) && SettledUpTo(rows, rows', owner, events, replies, k)
    decreases |events|
  {
    if events == [] || Refused(replies(events[0].id).ans) {
      assert events[0..] == events;
      if events != [] { assert events[0] in events; }
    } else {
      var e := events[0];
      var y := replies(e.id);
      assert e in events;
      SettleOne(rows, owner, e, y.ans, y.at, y.now);
      var rows1 := rows[e.id := Recorded(rows, e, y)];
      BatchTail(rows, rows1, owner, events);
      UndisturbedRunSettles(rows1, owner, events[1..], replies);
      var rows' := SettleAll(rows1, owner, events[1..], replies).0;
      SettledFirst(rows, rows', owner, events, replies, Recordable(events, replies));
    }
  }

  /** A claim is recorded under the trimmed owner and settled under the raw one, so a relay can settle what it claims
      exactly when its owner name has no surrounding blanks and the answer is not one Quarantine refuses. */
  lemma ClaimSettlesWhen(rows: Table, picked: set<Id>, owner: string, e: Event, claimed: Time, y: Reply)
    requires e.id in picked && e.id in rows && Open(rows[e.id])
    ensures Settle(Claim(rows, picked, TrimSpace(owner), claimed), owner, e, y.ans, y.at, y.now).1 == Done
            <==> Trimmed(owner) && !Refused(y.ans)
  {
    TrimSpaceFixes(owner);
    SettleOne(Claim(rows, picked, TrimSpace(owner), claimed), owner, e, y.ans, y.at, y.now);
  }

  /** A permanent error whose text is blank leaves its event claimed, whoever claimed it. */
  lemma BlankReasonIsRefused(rows: Table, owner: string, e: Event, code: Option<string>, y: Reply)
    requires y.ans == Failed(PublishError(code, Some(true), None, " "))
    ensures Settle(rows, owner, e, y.ans, y.at, y.now) == (rows, Invalid)
  {
    assert TrimLeft(" ") == [] by { assert " "[1..] == []; }
  }

  class Relay {
    const repository: Repository?
    const hasPublisher: bool
    const owner: string

    constructor (repository: Repository?, hasPublisher: bool, owner: string)
      ensures this.repository == repository && this.hasPublisher == hasPublisher && this.owner == owner
    {
      this.repository, this.hasPublisher, this.owner := repository, hasPublisher, owner;
    }

    method ProcessEvent(e: Event, y: Reply) returns (ok: bool)
      requires repository != null
      modifies repository
      ensures var (rows, res) := Settle(old(repository.rows), owner, e, y.ans, y.at, y.now);
              repository.rows == rows && ok == (res == Done)
    {
      var res;
      match y.ans {
        case Accepted => res := repository.MarkPublished(e.id, owner, y.now);
        case Failed(err) =>
          var (kind, code) := Classify(err);
          if kind == Permanent {
            res := repository.QuarantineEvent(e.id, owner, code, err.text, y.now);
          } else {
            res := repository.ReleaseEvent(e.id, owner, y.at + RetryDelay(e.failures), err.text);
          }
      }
      ok := res == Done;
    }

    /** RunOnce: claim a batch at database time `now`, with the relay's clock at `clock`, then settle it in order, each
        event at its own times, until something fails. */
    method RunOnce(replies: Id -> Reply, clock: Time, now: Time, skipped: set<Id>)
      returns (ok: bool, ghost batch: seq<Event>)
      modifies repository
      ensures repository == null || !hasPublisher || TrimSpace(owner) == "" ==> !ok && batch == []
      ensures repository != null && (!hasPublisher || TrimSpace(owner) == "") ==>
                repository.rows == old(repository.rows)
      ensures repository != null && hasPublisher && TrimSpace(owner) != "" ==>
                var before := old(repository.rows);
                var claimed := Claim(before, Ids(batch), TrimSpace(owner), now);
                && RightPick(before, Ids(batch), Candidates(before, now, clock - 60_000_000, skipped), 100)
                && (repository.rows, ok) == SettleAll(claimed, owner, batch, replies)
                && (Trimmed(owner) ==> Batch(claimed, owner, batch))
                && (forall id :: id in Ids(batch) ==> Takeable(before[id], now, clock - 60_000_000))
    {
      batch := [];
      if repository == null { return false, []; }
      if !hasPublisher { return false, []; }
      var events := repository.ClaimBatch(owner, BATCH_SIZE, Some(clock - LOCK_AGE), now, skipped);
      if events.None? { return false, []; }
      batch := events.value;
      ghost var claimed := repository.rows;
      ClaimedBatch(old(repository.rows), claimed, owner, batch, clock, now, skipped);
      var i := 0;
      assert batch[0..] == batch;
      while i < |events.value|
        invariant 0 <= i <= |events.value|
        invariant SettleAll(repository.rows, owner, batch[i..], replies) == SettleAll(claimed, owner, batch, replies)
      {
        var fine := ProcessEvent(events.value[i], replies(events.value[i].id));
        assert batch[i..][1..] == batch[i + 1..];
        if !fine { return false, batch; }
        i := i + 1;
      }
      ok := true;
    }
  }

  lemma ClaimedBatch(before: Table, claimed: Table, owner: string, batch: seq<Event>, clock: Time, now: Time,
                     skipped: set<Id>)
    requires RightPick(before, Ids(batch), Candidates(before, now, clock - LOCK_AGE, skipped), BATCH_SIZE)
    requires claimed == Claim(before, Ids(batch), TrimSpace(owner), now)
    requires forall i, j :: 0 <= i < j < |batch| ==> batch[i].id != batch[j].id
    requires forall e :: e in batch ==> e.id in claimed && e == EventOf(claimed, e.id)
    ensures Trimmed(owner) ==> Batch(claimed, owner, batch)
  {
    TrimSpaceFixes(owner);
    forall e | e in batch ensures e.id in Ids(batch) {}
  }
}
