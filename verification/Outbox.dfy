/** The transactional outbox table and its repository (internal/platform/outbox/repository.go,
    migrations/010_create_outbox.sql). Every method is one SQL statement on the table, run at database time `now`. */
module Outbox {
  import opened Common

  /** Microseconds. */
  type Time = int
  type Id = nat

  datatype Row = Row(
    subject: string, aggregateType: string, aggregateID: Id, payload: string, createdAt: Time,
    availableAt: Time, publishedAt: Option<Time>,
    attempts: int, failures: int, redrives: int, lastError: Option<string>,
    quarantinedAt: Option<Time>, quarantineCode: Option<string>, quarantineReason: Option<string>,
    lockedAt: Option<Time>, lockedBy: Option<string>)

  /** What an event says; the relay publishes it. */
  datatype Content = Content(subject: string, aggregateType: string, aggregateID: Id, payload: string)

  function ContentOf(r: Row): Content {
    Content(r.subject, r.aggregateType, r.aggregateID, r.payload)
  }

  type Table = map<Id, Row>

  datatype Result = Done | ClaimLost | NotQuarantined | Invalid

  // ---- the statements ----

  predicate Open(r: Row) {
    r.publishedAt.None? && r.quarantinedAt.None?
  }

  /** The guard of MarkPublished, Release and Quarantine. */
  predicate HeldBy(rows: Table, id: Id, owner: string) {
    id in rows && Open(rows[id]) && rows[id].lockedBy == Some(owner)
  }

  /** The WHERE clause of ClaimBatch's candidates. */
  predicate Eligible(r: Row, now: Time, stale: Time) {
    Open(r) && r.availableAt <= now && (r.lockedAt.None? || r.lockedAt.value < stale)
  }

  function ClaimRow(r: Row, owner: string, now: Time): Row {
    r.(lockedAt := Some(now), lockedBy := Some(owner), attempts := r.attempts + 1)
  }

  function MarkRow(r: Row, now: Time): Row {
    r.(publishedAt := Some(now), lockedAt := None, lockedBy := None, lastError := None)
  }

  function ReleaseRow(r: Row, availableAt: Time, error: string): Row {
    r.(availableAt := availableAt, failures := r.failures + 1, lockedAt := None, lockedBy := None,
       lastError := Some(error))
  }

  function QuarantineRow(r: Row, code: string, reason: string, now: Time): Row {
    r.(quarantinedAt := Some(now), quarantineCode := Some(code), quarantineReason := Some(reason),
       failures := r.failures + 1, lockedAt := None, lockedBy := None, lastError := Some(reason))
  }

  function RedriveRow(r: Row, availableAt: Time): Row {
    r.(quarantinedAt := None, quarantineCode := None, quarantineReason := None,
       availableAt := availableAt, redrives := r.redrives + 1)
  }

  function Claim(rows: Table, picked: set<Id>, owner: string, now: Time): (r: Table) {
    map id | id in rows :: if id in picked then ClaimRow(rows[id], owner, now) else rows[id]
  }

  function Mark(rows: Table, id: Id, owner: string, now: Time): (r: (Table, Result)) {
    if HeldBy(rows, id, owner) then (rows[id := MarkRow(rows[id], now)], Done) else (rows, ClaimLost)
  }

  function Release(rows: Table, id: Id, owner: string, availableAt: Time, error: string): (r: (Table, Result)) {
    if HeldBy(rows, id, owner) then (rows[id := ReleaseRow(rows[id], availableAt, error)], Done) else (rows, ClaimLost)
  }

  function Quarantine(rows: Table, id: Id, owner: string, code: string, reason: string, now: Time)
    : (r: (Table, Result))
  {
    var code, reason := TrimSpace(code), TrimSpace(reason);
    if code == "" || reason == "" then (rows, Invalid)
    else if HeldBy(rows, id, owner) then (rows[id := QuarantineRow(rows[id], code, reason, now)], Done)
    else (rows, ClaimLost)
  }

  function Redrive(rows: Table, id: Id, availableAt: Time): (r: (Table, Result)) {
    if id in rows && rows[id].publishedAt.None? && rows[id].quarantinedAt.Some?
    then (rows[id := RedriveRow(rows[id], availableAt)], Done)
    else (rows, NotQuarantined)
  }

  /** An event as the caller of Enqueue gives it; identifier 0 and a missing time stand for Go's zero values,
      and `validJSON` is the answer of the JSON library. */
  datatype NewEvent = NewEvent(id: Id, subject: string, aggregateType: string, aggregateID: Id,
                               payload: string, validJSON: bool, availableAt: Option<Time>)

  function FreshRow(e: NewEvent, now: Time): Row {
    Row(TrimSpace(e.subject), TrimSpace(e.aggregateType), e.aggregateID, e.payload, now,
        if e.availableAt.Some? then e.availableAt.value else now, None, 0, 0, 0, None, None, None, None, None, None)
  }

  /** Enqueue with `generated` as the identifier the UUID library would give. */
  function Enqueue(rows: Table, e: NewEvent, generated: Id, now: Time): (r: (Table, Option<Id>)) {
    var id := if e.id == 0 then generated else e.id;
    if TrimSpace(e.subject) == "" || TrimSpace(e.aggregateType) == "" || e.aggregateID == 0 || !e.validJSON
    then (rows, None)
    else if id in rows || exists c :: c in TrimSpace(e.subject) && IsSpace(c) then (rows, None)
    else (rows[id := FreshRow(e, now)], Some(id))
  }

  // ---- column by column ----

  /** The columns that say what the event is and when it was made. */
  predicate SameEvent(r: Row, r': Row) {
    ContentOf(r') == ContentOf(r) && r'.createdAt == r.createdAt
  }

  predicate SameQuarantine(r: Row, r': Row) {
    r'.quarantinedAt == r.quarantinedAt && r'.quarantineCode == r.quarantineCode
    && r'.quarantineReason == r.quarantineReason
  }

  predicate Unlocked(r: Row) {
    r.lockedAt == None && r.lockedBy == None
  }

  lemma ClaimColumns(r: Row, owner: string, now: Time)
    ensures var r' := ClaimRow(r, owner, now);
            && r'.lockedAt == Some(now) && r'.lockedBy == Some(owner) && r'.attempts == r.attempts + 1
            && SameEvent(r, r') && SameQuarantine(r, r') && r'.failures == r.failures && r'.redrives == r.redrives
            && r'.availableAt == r.availableAt && r'.publishedAt == r.publishedAt && r'.lastError == r.lastError
  {
  }

  lemma MarkColumns(r: Row, now: Time)
    ensures var r' := MarkRow(r, now);
            && r'.publishedAt == Some(now) && Unlocked(r') && r'.lastError == None
            && SameEvent(r, r') && SameQuarantine(r, r') && r'.availableAt == r.availableAt
            && r'.attempts == r.attempts && r'.failures == r.failures && r'.redrives == r.redrives
  {
  }

  lemma ReleaseColumns(r: Row, availableAt: Time, error: string)
    ensures var r' := ReleaseRow(r, availableAt, error);
            && r'.availableAt == availableAt && r'.failures == r.failures + 1 && Unlocked(r')
            && r'.lastError == Some(error)
            && SameEvent(r, r') && SameQuarantine(r, r') && r'.publishedAt == r.publishedAt
            && r'.attempts == r.attempts && r'.redrives == r.redrives
  {
  }

  lemma QuarantineColumns(r: Row, code: string, reason: string, now: Time)
    ensures var r' := QuarantineRow(r, code, reason, now);
            && r'.quarantinedAt == Some(now) && r'.quarantineCode == Some(code) && r'.quarantineReason == Some(reason)
            && r'.lastError == Some(reason) && r'.failures == r.failures + 1 && Unlocked(r')
            && SameEvent(r, r') && r'.availableAt == r.availableAt && r'.publishedAt == r.publishedAt
            && r'.attempts == r.attempts && r'.redrives == r.redrives
  {
  }

  lemma RedriveColumns(r: Row, availableAt: Time)
    ensures var r' := RedriveRow(r, availableAt);
            && r'.quarantinedAt == None && r'.quarantineCode == None && r'.quarantineReason == None
            && r'.availableAt == availableAt && r'.redrives == r.redrives + 1
            && SameEvent(r, r') && r'.publishedAt == r.publishedAt && r'.lastError == r.lastError
            && r'.lockedAt == r.lockedAt && r'.lockedBy == r.lockedBy
            && r'.attempts == r.attempts && r'.failures == r.failures
  {
  }

  /** The row may be settled by its holder: it is neither published nor quarantined, and locked under that very name. */
  predicate Settleable(rows: Table, id: Id, owner: string) {
    && id in rows && rows[id].publishedAt == None && rows[id].quarantinedAt == None
    && rows[id].lockedBy == Some(owner)
  }

  /** A statement went through exactly under its guard, changing its own row alone, and otherwise changed nothing. */
  ghost predicate Guarded(rows: Table, id: Id, guard: bool, r: (Table, Result)) {
    && (r.1 == Done <==> guard)
    && (r.1 != Done ==> r.0 == rows)
    && (r.1 == Done ==> id in rows && r.0.Keys == rows.Keys && forall x :: x in rows && x != id ==> r.0[x] == rows[x])
  }

  /** Each of the four statements that end or reopen an event goes through exactly when the row is as it must be. */
  lemma StatementsAreGuarded(rows: Table, id: Id, owner: string, availableAt: Time, code: string, text: string,
                             now: Time)
    ensures Guarded(rows, id, Settleable(rows, id, owner), Mark(rows, id, owner, now))
    ensures Guarded(rows, id, Settleable(rows, id, owner), Release(rows, id, owner, availableAt, text))
    ensures Guarded(rows, id, Settleable(rows, id, owner) && TrimSpace(code) != "" && TrimSpace(text) != "",
                    Quarantine(rows, id, owner, code, text, now))
    ensures Guarded(rows, id, id in rows && rows[id].publishedAt == None && rows[id].quarantinedAt != None,
                    Redrive(rows, id, availableAt))
  {
  }

  /** Redriving takes back a quarantine: but for the counters, the schedule and the error it is as if the event had been
      released at that time. */
  lemma RedriveUndoesQuarantine(r: Row, code: string, reason: string, now: Time, availableAt: Time)
    requires r.quarantinedAt == None && r.quarantineCode == None && r.quarantineReason == None
    ensures RedriveRow(QuarantineRow(r, code, reason, now), availableAt) ==
            ReleaseRow(r, availableAt, reason).(redrives := r.redrives + 1)
  {
  }

  /** The identifier an event is stored under. */
  function KeyOf(e: NewEvent, generated: Id): Id {
    if e.id == 0 then generated else e.id
  }

  /** Enqueue accepts exactly an event with a subject of one word, an aggregate and valid JSON under a free key. It then
      stores what it was given, blanks at the ends of the two names apart, as a pending event due when the caller
      says. */
  lemma EnqueueAcceptsWhen(rows: Table, e: NewEvent, generated: Id, now: Time)
    ensures var (rows', id) := Enqueue(rows, e, generated, now);
            var subject, key := TrimSpace(e.subject), KeyOf(e, generated);
            && (id.Some? <==>
                  && subject != "" && (forall k :: 0 <= k < |subject| ==> !IsSpace(subject[k]))
                  && TrimSpace(e.aggregateType) != "" && e.aggregateID != 0 && e.validJSON && key !in rows)
            && (id.None? ==> rows' == rows)
            && (id.Some? ==>
                  && id.value == key && rows'.Keys == rows.Keys + {key}
                  && (forall x :: x in rows ==> rows'[x] == rows[x])
                  && ContentOf(rows'[key]) == Content(subject, TrimSpace(e.aggregateType), e.aggregateID, e.payload)
                  && rows'[key].createdAt == now
                  && rows'[key].availableAt == (if e.availableAt.Some? then e.availableAt.value else now)
                  && HasStatus(rows'[key], Pending) && RowOk(rows'[key]) && rows'[key].lastError == None
                  && rows'[key].attempts == rows'[key].failures == rows'[key].redrives == 0)
  {
    var subject := TrimSpace(e.subject);
    if exists c :: c in subject && IsSpace(c) {
      var c :| c in subject && IsSpace(c);
      var k :| 0 <= k < |subject| && subject[k] == c;
    }
  }

  // ---- which rows a claim takes ----

  /** ORDER BY available_at, created_at. */
  predicate Before(a: Row, b: Row) {
    a.availableAt < b.availableAt || (a.availableAt == b.availableAt && a.createdAt <= b.createdAt)
  }

  /** The rows a claim may take: eligible, and not skipped because another transaction has them locked. */
  function Candidates(rows: Table, now: Time, stale: Time, skipped: set<Id>): set<Id> {
    set id | id in rows && id !in skipped && Eligible(rows[id], now, stale)
  }

  /** A right choice of at most `limit` candidates: all of them if they fit, else none later than one left out. */
  ghost predicate RightPick(rows: Table, picked: set<Id>, cands: set<Id>, limit: int) {
    && picked <= cands <= rows.Keys
    && |picked| <= limit
    && (|picked| < limit ==> picked == cands)
    && (forall x, y :: x in picked && y in cands - picked ==> Before(rows[x], rows[y]))
  }

  lemma FirstExists(rows: Table, s: set<Id>) returns (m: Id)
    requires s <= rows.Keys && s != {}
    ensures m in s && forall y :: y in s ==> Before(rows[m], rows[y])
    decreases |s|
  {
    m :| m in s;
    if s != {m} {
      var rest := s - {m};
      var k := FirstExists(rows, rest);
      if !Before(rows[m], rows[k]) { m := k; }
    }
  }

  /** Part way through picking: the candidates split into those picked, in order, and those left. */
  ghost predicate Picking(rows: Table, picked: seq<Id>, left: set<Id>, cands: set<Id>) {
    && left <= cands <= rows.Keys && NoDup(picked)
    && Elems(picked) == cands - left && |Elems(picked)| == |picked|
    && (forall x, y :: x in cands - left && y in left ==> Before(rows[x], rows[y]))
  }

  lemma PickStep(rows: Table, picked: seq<Id>, left: set<Id>, cands: set<Id>, m: Id)
    requires Picking(rows, picked, left, cands) && m in left && forall y :: y in left ==> Before(rows[m], rows[y])
    ensures Picking(rows, picked + [m], left - {m}, cands)
  {
    assert m !in Elems(picked);
    assert m !in picked;
    assert Elems(picked + [m]) == Elems(picked) + {m};
    assert cands - (left - {m}) == (cands - left) + {m};
  }

  // ---- the schema ----

  /** The table's CHECK constraints on counters, quarantine fields, terminal states and locks. */
  predicate SchemaOk(r: Row) {
    && r.attempts >= 0 && r.failures >= 0 && r.redrives >= 0
    && (if r.quarantinedAt.None? then r.quarantineCode.None? && r.quarantineReason.None?
        else r.quarantineCode.Some? && r.quarantineCode.value != "" && Trimmed(r.quarantineCode.value)
             && r.quarantineReason.Some? && r.quarantineReason.value != "" && Trimmed(r.quarantineReason.value))
    && !(r.publishedAt.Some? && r.quarantinedAt.Some?)
    && (r.lockedAt.Some? <==> r.lockedBy.Some?)
    && r.subject != "" && r.aggregateType != "" && (forall c :: c in r.subject ==> !IsSpace(c))
  }

  datatype Status = Pending | Claimed | Published | Quarantined

  /** The four situations of a row, each with every field it fixes. */
  predicate HasStatus(r: Row, s: Status) {
    match s
    case Pending => r.publishedAt.None? && r.quarantinedAt.None? && r.lockedAt.None? && r.lockedBy.None?
    case Claimed => r.publishedAt.None? && r.quarantinedAt.None? && r.lockedAt.Some? && r.lockedBy.Some?
    case Published => r.publishedAt.Some? && r.quarantinedAt.None? && r.lockedAt.None? && r.lockedBy.None?
    case Quarantined => r.publishedAt.None? && r.quarantinedAt.Some? && r.lockedAt.None? && r.lockedBy.None?
  }

  /** The schema and the stronger fact that published and quarantined rows are unlocked. */
  predicate RowOk(r: Row) {
    SchemaOk(r) && (!Open(r) ==> r.lockedAt.None?)
  }

  /** A well-formed row is in exactly one of the four situations. */
  lemma OneStatus(r: Row)
    requires RowOk(r)
    ensures exists s :: HasStatus(r, s) && forall s' :: HasStatus(r, s') ==> s' == s
  {
    var s := if r.publishedAt.Some? then Published else if r.quarantinedAt.Some? then Quarantined
             else if r.lockedAt.Some? then Claimed else Pending;
    assert HasStatus(r, s);
  }

  lemma QuarantineKeepsRow(r: Row, code: string, reason: string, now: Time)
    requires RowOk(r) && Open(r) && TrimSpace(code) != "" && TrimSpace(reason) != ""
    ensures RowOk(QuarantineRow(r, TrimSpace(code), TrimSpace(reason), now))
  {
    TrimSpaceTrims(code);
    TrimSpaceTrims(reason);
  }

  /** Neither published nor quarantined, due, and not locked since `stale`. */
  predicate Takeable(r: Row, now: Time, stale: Time) {
    && r.publishedAt == None && r.quarantinedAt == None && r.availableAt <= now
    && (r.lockedAt == None || r.lockedAt.value < stale)
  }

  /** Only takeable rows are picked; one is passed over only when the limit is reached, and only for rows due before it
      or, if due with it, made no later. */
  ghost predicate EarliestFirst(rows: Table, picked: seq<Id>, limit: int, stale: Time, now: Time, skipped: set<Id>) {
    && |picked| <= limit
    && (forall x :: x in picked ==> x in rows && x !in skipped && Takeable(rows[x], now, stale))
    && (forall y :: y in rows && y !in skipped && y !in picked && Takeable(rows[y], now, stale) ==>
          && |picked| == limit
          && (forall x :: x in picked ==>
                || rows[x].availableAt < rows[y].availableAt
                || (rows[x].availableAt == rows[y].availableAt && rows[x].createdAt <= rows[y].createdAt)))
  }

  lemma PickIsEarliestFirst(rows: Table, picked: seq<Id>, limit: int, stale: Time, now: Time, skipped: set<Id>)
    requires RightPick(rows, Elems(picked), Candidates(rows, now, stale, skipped), limit) && |Elems(picked)| == |picked|
    ensures EarliestFirst(rows, picked, limit, stale, now, skipped)
  {
    var cands := Candidates(rows, now, stale, skipped);
    forall x | x in picked ensures x in cands { assert x in Elems(picked); }
    forall y | y in rows && y !in skipped && y !in picked && Takeable(rows[y], now, stale)
      ensures |picked| == limit && forall x :: x in picked ==> Before(rows[x], rows[y])
    {
      assert y in cands && y !in Elems(picked);
      forall x | x in picked ensures Before(rows[x], rows[y]) { assert x in Elems(picked); }
    }
  }

  // ---- the repository ----

  /** An event as ClaimBatch returns it. */
  datatype Event = Event(id: Id, content: Content, attempts: int, failures: int)

  function EventOf(rows: Table, id: Id): Event
    requires id in rows
  {
    Event(id, ContentOf(rows[id]), rows[id].attempts, rows[id].failures)
  }

  ghost function Ids(events: seq<Event>): set<Id> {
    set e | e in events :: e.id
  }

  class Repository {
    var rows: Table

    constructor ()
      ensures rows == map[]
    {
      rows := map[];
    }

    method EnqueueEvent(e: NewEvent, generated: Id, now: Time) returns (id: Option<Id>)
      modifies this
      ensures (rows, id) == Enqueue(old(rows), e, generated, now)
    {
      var key := if e.id == 0 then generated else e.id;
      var subject, aggregate := TrimSpace(e.subject), TrimSpace(e.aggregateType);
      if subject == "" { return None; }
      if aggregate == "" { return None; }
      if e.aggregateID == 0 { return None; }
      if !e.validJSON { return None; }
      if key in rows || exists c :: c in subject && IsSpace(c) { return None; }
      rows := rows[key := FreshRow(e, now)];
      return Some(key);
    }

    /** The SELECT: the earliest candidates, at most `limit` of them. */
    method Select(limit: int, stale: Time, now: Time, skipped: set<Id>) returns (picked: seq<Id>)
      requires limit > 0
      ensures NoDup(picked)
      ensures RightPick(rows, Elems(picked), Candidates(rows, now, stale, skipped), limit)
      ensures EarliestFirst(rows, picked, limit, stale, now, skipped)
    {
      picked := [];
      var cands := Candidates(rows, now, stale, skipped);
      var left := cands;
      while |picked| < limit && left != {}
        invariant Picking(rows, picked, left, cands) && |picked| <= limit
        decreases left
      {
        ghost var first := FirstExists(rows, left);
        var m :| m in left && forall y :: y in left ==> Before(rows[m], rows[y]);
        PickStep(rows, picked, left, cands, m);
        picked := picked + [m];
        left := left - {m};
      }
      PickIsEarliestFirst(rows, picked, limit, stale, now, skipped);
    }

    /** ClaimBatch. It refuses a blank owner, a non-positive limit and a zero time; otherwise it locks a right pick for
        the trimmed owner and returns exactly those rows, as updated. */
    method ClaimBatch(owner: string, limit: int, stale: Option<Time>, now: Time, skipped: set<Id>)
      returns (events: Option<seq<Event>>)
      modifies this
      ensures events.None? <==> TrimSpace(owner) == "" || limit <= 0 || stale.None?
      ensures events.None? ==> rows == old(rows)
      ensures events.Some? ==>
                && RightPick(old(rows), Ids(events.value), Candidates(old(rows), now, stale.value, skipped), limit)
                && rows == Claim(old(rows), Ids(events.value), TrimSpace(owner), now)
                && (forall i, j :: 0 <= i < j < |events.value| ==> events.value[i].id != events.value[j].id)
                && (forall e :: e in events.value ==> e.id in rows && e == EventOf(rows, e.id))
                && (forall e :: e in events.value ==>
                      && rows[e.id].lockedAt == Some(now) && rows[e.id].lockedBy == Some(TrimSpace(owner))
                      && rows[e.id].attempts == old(rows)[e.id].attempts + 1 && e.attempts == rows[e.id].attempts
                      && Takeable(old(rows)[e.id], now, stale.value))
                && (forall id :: id in old(rows) && id !in Ids(events.value) ==>
                      id in rows && rows[id] == old(rows)[id])
    {
      var name := TrimSpace(owner);
      if name == "" { return None; }
      if limit <= 0 { return None; }
      if stale.None? { return None; }
      var picked := Select(limit, stale.value, now, skipped);
      ghost var chosen := Elems(picked);
      rows := Claim(rows, Elems(picked), name, now);
      var list: seq<Event> := [];
      for i := 0 to |picked|
        invariant |list| == i
        invariant forall k :: 0 <= k < i ==> picked[k] in rows && list[k] == EventOf(rows, picked[k])
      {
        assert picked[i] in chosen;
        list := list + [EventOf(rows, picked[i])];
      }
      forall x ensures x in Ids(list) <==> x in chosen {
        if x in chosen {
          var k :| 0 <= k < |picked| && picked[k] == x;
          assert list[k] in list;
        }
      }
      assert Ids(list) == chosen;
      return Some(list);
    }

    method MarkPublished(id: Id, owner: string, now: Time) returns (res: Result)
      modifies this
      ensures (rows, res) == Mark(old(rows), id, owner, now)
    {
      if !HeldBy(rows, id, owner) { return ClaimLost; }
      rows := rows[id := MarkRow(rows[id], now)];
      return Done;
    }

    method ReleaseEvent(id: Id, owner: string, availableAt: Time, error: string) returns (res: Result)
      modifies this
      ensures (rows, res) == Release(old(rows), id, owner, availableAt, error)
    {
      if !HeldBy(rows, id, owner) { return ClaimLost; }
      rows := rows[id := ReleaseRow(rows[id], availableAt, error)];
      return Done;
    }

    method QuarantineEvent(id: Id, owner: string, code: string, reason: string, now: Time) returns (res: Result)
      modifies this
      ensures (rows, res) == Quarantine(old(rows), id, owner, code, reason, now)
    {
      var c, r := TrimSpace(code), TrimSpace(reason);
      if c == "" || r == "" { return Invalid; }
      if !HeldBy(rows, id, owner) { return ClaimLost; }
      rows := rows[id := QuarantineRow(rows[id], c, r, now)];
      return Done;
    }

    method RedriveEvent(id: Id, availableAt: Time) returns (res: Result)
      modifies this
      ensures (rows, res) == Redrive(old(rows), id, availableAt)
    {
      if id in rows && rows[id].publishedAt.None? && rows[id].quarantinedAt.Some? {
        rows := rows[id := RedriveRow(rows[id], availableAt)];
        return Done;
      }
      return NotQuarantined;
    }
  }
}
