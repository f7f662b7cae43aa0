// A cleanup call and the world it acts on: which row retires is decided by what the executor
// answered for it, and by nothing else.

module CleanupAnswers {
  import opened Prelude
  import opened LedgerTypes
  import opened LedgerState
  import opened LedgerOps
  import opened LedgerInvariant
  import opened LedgerFacts
  import opened LedgerAnswers
  import opened RunnerSpec
  import Runs = LedgerRuns

  // Whom an outcome comes from: the executor is asked about every target there is something to do
  // about, an accounting row needs nobody, and an unresolved target is nobody's to act on.
  ghost predicate AsAnswered(a: Attempt, c: Call) {
    if a.work.target.AccountingOnly? then a.outcome == OutcomeConfirmed
    else if a.work.target.Unresolved? then a.outcome == OutcomeBlocked(a.work.target.reason)
    else a.outcome == c.world(a.work)
  }

  // The resource is gone: there was none, or the executor said so.
  predicate Gone(work: CleanupWork, c: Call) {
    || work.target.AccountingOnly?
    || (!work.target.Unresolved? && (c.world(work) == OutcomeConfirmed || c.world(work) == OutcomeAbsent))
  }

  ghost predicate AttemptAnswered(s: State, t: State, a: Attempt, c: Call) {
    var id := a.work.task.id;
    && id in s.holdings && id in t.holdings && id in t.cleanups
    && s.holdings[id].state == Retiring(id) && a.work.target == s.holdings[id].target
    && a.work.task.holding == Handle(id, s.holdings[id].generation)
    && AsAnswered(a, c)
    && t.holdings[id] == (if Gone(a.work, c) then s.holdings[id].(state := Retired(c.now)) else s.holdings[id])
    && Leaves(a.outcome, t.cleanups[id].state)
  }

  predicate ActedOn(log: seq<Attempt>, id: nat) {
    exists a :: a in log && a.work.task.id == id
  }

  // Every attempt of a call has the outcome the world gave, leaves it on record, and retires its
  // row exactly when the resource is gone; every other row and record is untouched.
  ghost predicate Answered(s: State, log: seq<Attempt>, t: State, c: Call) {
    && t.holdings.Keys == s.holdings.Keys && t.cleanups.Keys == s.cleanups.Keys
    && (forall a {:trigger a in log} :: a in log ==> AttemptAnswered(s, t, a, c))
    && (forall id {:trigger t.holdings[id]} ::
          id in s.holdings && !ActedOn(log, id) ==> t.holdings[id] == s.holdings[id])
    && (forall id {:trigger t.cleanups[id]} ::
          id in s.cleanups && !ActedOn(log, id) ==> t.cleanups[id] == s.cleanups[id])
  }

  lemma ExecutesAnswered(s: State, a: Attempt, c: Call)
    requires Valid(s) && Executes(s, a, c)
    ensures AttemptAnswered(s, Attempted(s, a, c), a, c)
    ensures var id := a.work.task.id;
            var t := Attempted(s, a, c);
            && id in s.cleanups && t.holdings.Keys == s.holdings.Keys && t.cleanups.Keys == s.cleanups.Keys
            && (forall k :: k in s.holdings && k != id ==> t.holdings[k] == s.holdings[k])
            && (forall k :: k in s.cleanups && k != id ==> t.cleanups[k] == s.cleanups[k])
  {
    hide Valid, Finish, Claim, Evolves, HasOccupyingChild;
    AttemptEffect(s, a, c);
    var mid := Claim(s, a.work.task.id, c.worker, c.now).state;
    ClaimPreserves(s, a.work.task.id, c.worker, c.now);
    ValidRows(s);
    ClaimEffect(s, a, c);
    assert RowOk(s, a.work.task.id);
    FinishExact(mid, a.work, a.outcome, c.now);
  }

  lemma ActedOnIds(log: seq<Attempt>, id: nat)
    ensures id in LogIds(log) <==> ActedOn(log, id)
  {
  }

  lemma OneMoreAnswer(s: State, log: seq<Attempt>, t: State, a: Attempt, c: Call)
    requires Valid(t) && Answered(s, log, t, c) && Executes(t, a, c) && a.work.task.id !in LogIds(log)
    ensures Answered(s, log + [a], Attempted(t, a, c), c)
  {
    hide Valid, Executes, Attempted, AsAnswered, Gone, Leaves;
    var u, id, all := Attempted(t, a, c), a.work.task.id, log + [a];
    ExecutesAnswered(t, a, c);
    ActedOnIds(log, id);
    assert t.holdings[id] == s.holdings[id];
    forall b | b in all
      ensures AttemptAnswered(s, u, b, c)
    {
      if b in log {
        assert b.work.task.id != id;
        assert AttemptAnswered(s, t, b, c);
      }
    }
    forall k | !ActedOn(all, k)
      ensures !ActedOn(log, k) && k != id
    {
      assert all[|log|] == a;
      forall b | b in log
        ensures b.work.task.id != k
      {
        assert b in all;
      }
    }
  }

  lemma {:induction false} CallAnswers(s: State, log: seq<Attempt>, c: Call)
    requires Valid(s) && LogOk(s, log, c)
    ensures Answered(s, log, After(s, log, c), c)
    decreases |log|
  {
    hide Valid, Executes, Attempted, Answered;
    if log == [] {
      assert Answered(s, [], s, c) by { NothingAnswered(s, c); }
    } else {
      var front, last := log[..|log| - 1], log[|log| - 1];
      CallAnswers(s, front, c);
      LogEvolves(s, front, c, |front|);
      assert front[..|front|] == front && log == front + [last];
      OneMoreAnswer(s, front, After(s, front, c), last, c);
    }
  }

  lemma NothingAnswered(s: State, c: Call)
    ensures Answered(s, [], s, c)
  {
  }

  // A row in the care of an executor retires in a call only if the executor said it is gone, and
  // an unresolved row never does.
  lemma RetiresAsAnswered(s: State, log: seq<Attempt>, c: Call, id: nat)
    requires Valid(s) && LogOk(s, log, c) && id in s.holdings
    requires var t := After(s, log, c); id in t.holdings && t.holdings[id] != s.holdings[id]
    ensures var t := After(s, log, c);
            && t.holdings[id] == s.holdings[id].(state := Retired(c.now)) && s.holdings[id].state == Retiring(id)
            && !s.holdings[id].target.Unresolved?
            && (!s.holdings[id].target.AccountingOnly? ==>
                  exists a :: a in log && a.work.task.id == id && a.work.target == s.holdings[id].target &&
                              (c.world(a.work) == OutcomeConfirmed || c.world(a.work) == OutcomeAbsent))
  {
    hide Valid, LogOk, After, AsAnswered;
    CallAnswers(s, log, c);
    var a :| a in log && a.work.task.id == id;
    assert AttemptAnswered(s, After(s, log, c), a, c);
  }
}
