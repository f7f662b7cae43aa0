// What one call of the cleanup runner may do: the log of its attempts and their effect.

module RunnerSpec {
  import opened Prelude
  import opened LedgerTypes
  import opened LedgerState
  import opened LedgerOps
  import opened LedgerInvariant
  import opened LedgerRows
  import Runs = LedgerRuns

  // The executor is an arbitrary answer to every claimed piece of work.
  type World = CleanupWork -> CleanupOutcome

  datatype Attempt = Attempt(work: CleanupWork, outcome: CleanupOutcome)

  // Accounting rows need no executor; unresolved targets never reach it.
  function Decide(world: World, work: CleanupWork): CleanupOutcome {
    match work.target
    case AccountingOnly => OutcomeConfirmed
    case Unresolved(_, reason) => OutcomeBlocked(reason)
    case _ => world(work)
  }

  // The fixed inputs of one call.
  datatype Call = Call(worker: HostWitness, now: Timestamp, world: World)

  // Claim, act, finish.
  function Attempted(s: State, a: Attempt, c: Call): State {
    Finish(Claim(s, a.work.task.id, c.worker, c.now).state, a.work, a.outcome, c.now).state
  }

  predicate Executes(s: State, a: Attempt, c: Call) {
    && Claim(s, a.work.task.id, c.worker, c.now).result == Ok(Some(a.work))
    && a.outcome == Decide(c.world, a.work)
  }

  lemma ClaimEffect(s: State, a: Attempt, c: Call)
    requires RowsOk(s) && TasksOk(s) && Executes(s, a, c)
    ensures var id := a.work.task.id;
            && id in s.cleanups && id in s.holdings && s.holdings[id].state == Retiring(id)
            && !HasOccupyingChild(s.holdings, id) && a.work.target == s.holdings[id].target
            && a.work.task.state.Running? && a.work.task.holding == s.holdings[id].Ref()
            && Claim(s, id, c.worker, c.now).state == s.(cleanups := s.cleanups[id := a.work.task])
  {
    hide HasOccupyingChild;
    assert TaskOk(s, a.work.task.id);
    assert RowOk(s, a.work.task.id);
  }

  lemma FinishEffect(s: State, a: Attempt, now: Timestamp)
    requires var id := a.work.task.id;
             && id in s.cleanups && s.cleanups[id] == a.work.task && a.work.task.state.Running?
             && id in s.holdings && s.holdings[id].state == Retiring(id) && a.work.task.holding == s.holdings[id].Ref()
             && s.holdings[id].id == id
             && !HasOccupyingChild(s.holdings, id) && a.work.target == s.holdings[id].target
    ensures var id := a.work.task.id;
            var step := Finish(s, a.work, a.outcome, now);
            && step.result.Ok?
            && step.state.cleanups == s.cleanups[id := a.work.task.(state := a.outcome.Recorded(), updatedAt := now)]
            && step.state.holdings ==
                 (if a.outcome.Discharges() then s.holdings[id := s.holdings[id].(state := Retired(now))]
                   else s.holdings)
            && step.state == s.(holdings := step.state.holdings, cleanups := step.state.cleanups)
  {
  }

  lemma AttemptEffect(s: State, a: Attempt, c: Call)
    requires Valid(s) && Executes(s, a, c)
    ensures var id := a.work.task.id;
            var t := Attempted(s, a, c);
            && Finish(Claim(s, id, c.worker, c.now).state, a.work, a.outcome, c.now).result.Ok?
            && Valid(t) && Evolves(s, t)
            && id in s.cleanups && id in s.holdings && s.holdings[id].state == Retiring(id)
            && !HasOccupyingChild(s.holdings, id) && a.work.target == s.holdings[id].target
            && t.cleanups == s.cleanups[id := a.work.task.(state := a.outcome.Recorded(), updatedAt := c.now)]
            && t.holdings ==
                 (if a.outcome.Discharges() then s.holdings[id := s.holdings[id].(state := Retired(c.now))]
                  else s.holdings)
            && t == s.(holdings := t.holdings, cleanups := t.cleanups)
  {
    hide Valid, Evolves, Finish, HasOccupyingChild, Executes, Claim;
    var id := a.work.task.id;
    var mid := Claim(s, id, c.worker, c.now).state;
    ClaimPreserves(s, id, c.worker, c.now);
    FinishPreserves(mid, a.work, a.outcome, c.now);
    EvolvesTransitive(s, mid, Attempted(s, a, c));
    ValidRows(s);
    ClaimEffect(s, a, c);
    assert RowOk(s, id);
    FinishEffect(mid, a, c.now);
  }

  lemma ValidRows(s: State)
    requires Valid(s)
    ensures RowsOk(s) && TasksOk(s) && RetirementsOk(s)
  {
  }

  // ----- the log of one call -----

  function LogIds(log: seq<Attempt>): set<nat> {
    set a | a in log :: a.work.task.id
  }

  function After(s: State, log: seq<Attempt>, c: Call): State {
    if log == [] then s else Attempted(After(s, log[..|log| - 1], c), log[|log| - 1], c)
  }

  // Every entry executes on the state its predecessors left; no task appears twice.
  predicate LogOk(s: State, log: seq<Attempt>, c: Call) {
    log == [] ||
    (var front, last := log[..|log| - 1], log[|log| - 1];
     && LogOk(s, front, c)
     && Executes(After(s, front, c), last, c)
     && last.work.task.id !in LogIds(front))
  }

  predicate Discharged(log: seq<Attempt>, id: nat) {
    exists a :: a in log && a.work.task.id == id && a.outcome.Discharges()
  }

  predicate Failed(log: seq<Attempt>, id: nat) {
    exists a :: a in log && a.work.task.id == id && !a.outcome.Discharges()
  }

  // The record and the row a log leaves for `id`.
  predicate TaskRan(s: State, log: seq<Attempt>, t: State, id: nat)
    requires id in s.cleanups && id in t.cleanups
  {
    && (id !in LogIds(log) ==> t.cleanups[id] == s.cleanups[id])
    && (Discharged(log, id) ==> t.cleanups[id].state.Done?)
    && (Failed(log, id) ==>
         !t.cleanups[id].state.Done? && !t.cleanups[id].state.Running? &&
         !t.cleanups[id].state.Pending?)
  }

  function RowRan(s: State, log: seq<Attempt>, c: Call, id: nat): Holding
    requires id in s.holdings
  {
    if Discharged(log, id) then s.holdings[id].(state := Retired(c.now)) else s.holdings[id]
  }

  // The whole effect of a log.
  ghost predicate RanTo(s: State, log: seq<Attempt>, t: State, c: Call) {
    && Valid(t) && Evolves(s, t)
    && t == s.(holdings := t.holdings, cleanups := t.cleanups)
    && t.holdings.Keys == s.holdings.Keys && t.cleanups.Keys == s.cleanups.Keys
    && LogIds(log) <= s.cleanups.Keys
    && (forall id {:trigger t.cleanups[id]} :: id in t.cleanups ==> TaskRan(s, log, t, id))
    && (forall id {:trigger t.holdings[id]} :: id in t.holdings ==> t.holdings[id] == RowRan(s, log, c, id))
  }

  lemma NothingRan(s: State, c: Call)
    requires Valid(s)
    ensures RanTo(s, [], s, c)
  {
    EvolvesReflexive(s);
  }

  lemma LogGrows(log: seq<Attempt>, a: Attempt)
    ensures LogIds(log + [a]) == LogIds(log) + {a.work.task.id}
    ensures forall id :: Discharged(log + [a], id) <==>
              Discharged(log, id) || (id == a.work.task.id && a.outcome.Discharges())
    ensures forall id :: Failed(log + [a], id) <==> Failed(log, id) || (id == a.work.task.id && !a.outcome.Discharges())
  {
    var all := log + [a];
    assert all[|log|] == a;
    assert forall x :: x in all <==> x in log || x == a;
    forall id
      ensures Discharged(all, id) <==> Discharged(log, id) || (id == a.work.task.id && a.outcome.Discharges())
      ensures Failed(all, id) <==> Failed(log, id) || (id == a.work.task.id && !a.outcome.Discharges())
    {
    }
  }

  lemma LoggedIds(log: seq<Attempt>)
    ensures forall id :: Discharged(log, id) || Failed(log, id) <==> id in LogIds(log)
  {
    forall id
      ensures Discharged(log, id) || Failed(log, id) <==> id in LogIds(log)
    {
      if id in LogIds(log) {
        var a :| a in log && a.work.task.id == id;
        assert a.outcome.Discharges() || !a.outcome.Discharges();
      }
    }
  }

  lemma OneMoreTask(s: State, log: seq<Attempt>, t: State, u: State, a: Attempt, now: Timestamp, id: nat)
    requires id in s.cleanups && id in t.cleanups && TaskRan(s, log, t, id) && a.work.task.id !in LogIds(log)
    requires u.cleanups == t.cleanups[a.work.task.id := a.work.task.(state := a.outcome.Recorded(), updatedAt := now)]
    ensures id in u.cleanups && TaskRan(s, log + [a], u, id)
  {
    LogGrows(log, a);
    LoggedIds(log);
  }

  lemma OneMoreRow(s: State, log: seq<Attempt>, t: State, u: State, a: Attempt, c: Call, id: nat)
    requires id in s.holdings && id in t.holdings && t.holdings[id] == RowRan(s, log, c, id) &&
               a.work.task.id !in LogIds(log)
    requires a.work.task.id in t.holdings
    requires var did := a.work.task.id;
             u.holdings ==
               if a.outcome.Discharges() then t.holdings[did := t.holdings[did].(state := Retired(c.now))]
               else t.holdings
    ensures id in u.holdings && u.holdings[id] == RowRan(s, log + [a], c, id)
  {
    LogGrows(log, a);
    LoggedIds(log);
  }

  lemma OneMoreAttempt(s: State, log: seq<Attempt>, t: State, c: Call, a: Attempt)
    requires RanTo(s, log, t, c) && Executes(t, a, c) && a.work.task.id !in LogIds(log)
    ensures RanTo(s, log + [a], Attempted(t, a, c), c)
  {
    hide Valid, Evolves, Attempted, TaskRan, RowRan, Executes, LogIds;
    var u := Attempted(t, a, c);
    AttemptEffect(t, a, c);
    EvolvesTransitive(s, t, u);
    LogGrows(log, a);
    forall id | id in u.cleanups
      ensures TaskRan(s, log + [a], u, id)
    {
      assert t.cleanups[id] == t.cleanups[id];
      OneMoreTask(s, log, t, u, a, c.now, id);
    }
    forall id | id in u.holdings
      ensures u.holdings[id] == RowRan(s, log + [a], c, id)
    {
      OneMoreRow(s, log, t, u, a, c, id);
    }
  }

  lemma {:induction false} LogEffect(s: State, log: seq<Attempt>, c: Call)
    requires Valid(s) && LogOk(s, log, c)
    ensures RanTo(s, log, After(s, log, c), c)
    decreases |log|
  {
    hide RanTo, Executes, Attempted;
    if log == [] {
      NothingRan(s, c);
    } else {
      var front, last := log[..|log| - 1], log[|log| - 1];
      LogEffect(s, front, c);
      assert log == front + [last];
      OneMoreAttempt(s, front, After(s, front, c), c, last);
    }
  }

  lemma {:induction false} LogPrefix(s: State, log: seq<Attempt>, c: Call, k: nat)
    requires LogOk(s, log, c) && k < |log|
    ensures LogOk(s, log[..k], c) && Executes(After(s, log[..k], c), log[k], c)
    ensures log[k].work.task.id !in LogIds(log[..k])
    decreases |log|
  {
    hide Executes;
    var n := |log| - 1;
    if k < n {
      LogPrefix(s, log[..n], c, k);
      assert log[..n][..k] == log[..k];
    }
  }

  lemma {:induction false} LogEvolves(s: State, log: seq<Attempt>, c: Call, k: nat)
    requires Valid(s) && LogOk(s, log, c) && k <= |log|
    ensures Valid(After(s, log[..k], c)) && Evolves(After(s, log[..k], c), After(s, log, c))
    decreases |log|
  {
    hide Executes, Attempted, Evolves, Valid;
    if k == |log| {
      assert log[..k] == log;
      LogEffect(s, log, c);
      assert RanTo(s, log, After(s, log, c), c);
      EvolvesReflexive(After(s, log, c));
    } else {
      var n := |log| - 1;
      var front := log[..n];
      LogEvolves(s, front, c, k);
      assert front[..k] == log[..k];
      LogEffect(s, front, c);
      AttemptEffect(After(s, front, c), log[n], c);
      EvolvesTransitive(After(s, log[..k], c), After(s, front, c), After(s, log, c));
    }
  }

  // No task is executed twice in one call.
  lemma AtMostOnce(s: State, log: seq<Attempt>, c: Call, i: nat, j: nat)
    requires LogOk(s, log, c) && i < j < |log|
    ensures log[i].work.task.id != log[j].work.task.id
  {
    LogPrefix(s, log, c, j);
    assert log[..j][i] == log[i];
  }

  // At its claim a holding has nothing occupying below it, and nothing below it ever
  // occupies again.
  lemma QuietFromClaim(s: State, log: seq<Attempt>, c: Call, j: nat, d: nat)
    requires Valid(s) && LogOk(s, log, c) && j < |log|
    requires Below(s.holdings, d, log[j].work.task.id) && d != log[j].work.task.id
    ensures !Occupying(After(s, log, c).holdings, d)
  {
    hide LogOk, Executes, Attempted, LedgerState.Valid, HasOccupyingChild, Below, Evolves;
    LogPrefix(s, log, c, j);
    LogEvolves(s, log, c, j);
    LogEffect(s, log[..j], c);
    var mid := After(s, log[..j], c);
    AttemptEffect(mid, log[j], c);
    ParentsKept(s, mid);
    BelowSame(s.holdings, mid.holdings, d, log[j].work.task.id);
    ValidRows(mid);
    Runs.NoOccupyingBelow(mid, log[j].work.task.id);
    QuietStays(mid, After(s, log, c), d, log[j].work.task.id);
  }

  lemma ParentsKept(s: State, t: State)
    requires Evolves(s, t)
    ensures SameParents(s.holdings, t.holdings)
  {
    forall id | id in s.holdings
      ensures id in t.holdings && t.holdings[id].parent == s.holdings[id].parent
    {
      assert RowEvolves(s.holdings[id], t.holdings[id]);
    }
  }

  lemma QuietStays(s: State, t: State, d: nat, top: nat)
    requires Evolves(s, t) && Below(s.holdings, d, top) && !Occupying(s.holdings, d)
    ensures !Occupying(t.holdings, d)
  {
    assert d in s.holdings;
    assert RowEvolves(s.holdings[d], t.holdings[d]);
  }

  // A holding is acted on only after everything below it that this call acts on.
  lemma ChildrenFirst(s: State, log: seq<Attempt>, c: Call, i: nat, j: nat)
    requires Valid(s) && LogOk(s, log, c) && i < |log| && j < |log|
    requires log[i].work.task.id != log[j].work.task.id
    requires Below(s.holdings, log[i].work.task.id, log[j].work.task.id)
    ensures i < j
  {
    hide LogOk, Executes, Attempted, LedgerState.Valid, HasOccupyingChild, Below, After;
    if j < i {
      var front := log[..i];
      LogPrefix(s, log, c, i);
      assert front[j] == log[j];
      QuietFromClaim(s, front, c, j, log[i].work.task.id);
      LogEffect(s, front, c);
      AttemptEffect(After(s, front, c), log[i], c);
    }
  }

  lemma {:induction false} BelowInSame(hs: Rows, ks: Rows, d: nat, top: nat, n: nat)
    requires SameParents(hs, ks) && BelowIn(hs, d, top, n)
    ensures BelowIn(ks, d, top, n)
    decreases n
  {
    if n > 0 {
      BelowInSame(hs, ks, hs[d].parent.value, top, n - 1);
    }
  }

  lemma BelowSame(hs: Rows, ks: Rows, d: nat, top: nat)
    requires SameParents(hs, ks) && Below(hs, d, top)
    ensures Below(ks, d, top)
  {
    var n: nat :| BelowIn(hs, d, top, n);
    BelowInSame(hs, ks, d, top, n);
  }
}
