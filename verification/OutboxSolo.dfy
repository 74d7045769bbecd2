/** A relay that meets no interference and no fault does, step by step, what the sequential RunOnce does. */
module OutboxSolo {
  import opened Common
  import opened Outbox
  import opened OutboxRelay
  import opened OutboxProtocol

  /** The events run t still has to publish, plus one for the step that ends it. */
  function Left(w: World, t: Tid): nat {
    if t in w.runs && w.runs[t].pc.Working? then |w.runs[t].pc.todo| + 1 else 0
  }

  /** Publish and settle one event after the other, until the list is empty or something fails. */
  function DrainAlone(w: World, t: Tid, answers: Id -> Answer): World
    decreases Left(w, t)
  {
    if Left(w, t) == 0 then w
    else if w.runs[t].pc.todo == [] then Step(w, Publishes(t, Accepted, true))
    else DrainAlone(Step(Step(w, Publishes(t, answers(w.runs[t].pc.todo[0].id), true)), Settles(t, Fine)), t, answers)
  }

  function AtOnce(answers: Id -> Answer, now: Time): Id -> Reply {
    (id: Id) => Reply(answers(id), now, now)
  }

  lemma OneEvent(w: World, t: Tid, ans: Answer)
    requires t in w.runs && w.runs[t].pc.Working? && w.runs[t].pc.todo != []
    ensures var RunState(owner, pc) := w.runs[t];
            var (rows, res) := Settle(w.rows, owner, pc.todo[0], ans, w.clock, w.clock);
            var w' := Step(Step(w, Publishes(t, ans, true)), Settles(t, Fine));
            && w'.rows == rows && w'.clock == w.clock
            && w'.runs == (if res == Done then w.runs[t := RunState(owner, Working(pc.todo[1..]))] else w.runs - {t})
  {
    var todo := w.runs[t].pc.todo;
    var w1 := Step(w, Publishes(t, ans, true));
    assert w1.runs[t].pc == Answered(todo, ans, w.clock);
    assert w1.runs - {t} == w.runs - {t};
  }

  /** From its claimed list on, a relay alone ends with the table the loop of RunOnce leaves: it settles in order and
      stops at the first event it cannot settle. */
  lemma {:induction false} DrainAloneIsSettleAll(w: World, t: Tid, answers: Id -> Answer)
    requires t in w.runs && w.runs[t].pc.Working?
    ensures var w', RunState(owner, pc) := DrainAlone(w, t, answers), w.runs[t];
            && w'.rows == SettleAll(w.rows, owner, pc.todo, AtOnce(answers, w.clock)).0
            && w'.runs == w.runs - {t} && w'.clock == w.clock
    decreases |w.runs[t].pc.todo|
  {
    var RunState(owner, pc) := w.runs[t];
    if pc.todo != [] {
      var ans := answers(pc.todo[0].id);
      OneEvent(w, t, ans);
      var w1 := Step(Step(w, Publishes(t, ans, true)), Settles(t, Fine));
      if Settle(w.rows, owner, pc.todo[0], ans, w.clock, w.clock).1 == Done {
        DrainAloneIsSettleAll(w1, t, answers);
        assert w1.runs - {t} == w.runs - {t};
      } else {
        assert Left(w1, t) == 0;
      }
    }
  }

  /** A whole RunOnce alone: the claim of a right pick, and then its settlement. */
  lemma RunAloneIsRunOnce(w: World, t: Tid, owner: string, order: seq<Id>, answers: Id -> Answer)
    requires t !in w.runs && TrimSpace(owner) != "" && MayClaim(w, w.clock - LOCK_AGE, order)
    ensures var w' := DrainAlone(Step(Step(w, Starts(t, owner)), Claims(t, order, Fine)), t, answers);
            var claimed := Claim(w.rows, Elems(order), TrimSpace(owner), w.clock);
            && (forall id :: id in order ==> id in claimed)
            && w'.rows == SettleAll(claimed, owner, EventsOf(claimed, order), AtOnce(answers, w.clock)).0
            && w'.runs == w.runs
  {
    var w1 := Step(w, Starts(t, owner));
    assert w1.runs[t] == RunState(owner, Claiming(w.clock - LOCK_AGE)) && MayClaim(w1, w.clock - LOCK_AGE, order);
    var w2 := Step(w1, Claims(t, order, Fine));
    DrainAloneIsSettleAll(w2, t, answers);
    assert w2.runs - {t} == w.runs;
  }
}
