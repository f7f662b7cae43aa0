// The cleanup runner on a store it shares: between any two of its own transactions, and while its
// executor works, others may do anything to the ledger.

module SharedRunner {
  import opened Prelude
  import opened LedgerTypes
  import opened LedgerState
  import opened LedgerOps
  import opened LedgerInvariant
  import opened LedgerRows
  import opened LedgerObject
  import opened RunnerSpec
  import opened SharedRuns
  import Runs = LedgerRuns
  import Cleanup = LedgerCleanup
  import Storage = LedgerStorage
  import Runner
  import Alone = RunnerMain

  // ----- the history of a call -----

  // Everything known between two transactions.
  ghost predicate Underway(s: State, turns: seq<Turn>, t: State, c: Call) {
    && Valid(s) && CallOk(s, turns, c) && t == Turned(s, turns, c)
    && Valid(t) && Tried(turns) <= t.cleanups.Keys
  }

  lemma TriedGrows(turns: seq<Turn>, turn: Turn)
    ensures Tried(turns + [turn]) == Tried(turns) + (if turn.Claimed? then {turn.task} else {})
  {
    var all := turns + [turn];
    assert all[|turns|] == turn;
    forall id
      ensures id in Tried(all) <==> id in Tried(turns) || (turn.Claimed? && id == turn.task)
    {
      if id in Tried(turns) {
        var k :| 0 <= k < |turns| && turns[k].Claimed? && turns[k].task == id;
        assert all[k] == turns[k];
      }
    }
  }

  lemma OneMoreTurn(s: State, turns: seq<Turn>, t: State, turn: Turn, c: Call)
    requires Underway(s, turns, t, c) && TurnOk(s, turns, turn, c)
    ensures Underway(s, turns + [turn], Apply(t, OpOf(turn, c)).state, c)
    ensures Evolves(t, Apply(t, OpOf(turn, c)).state)
  {
    hide Valid, Apply, TurnOk, Tried;
    var all := turns + [turn];
    Runs.OpPreserves(t, OpOf(turn, c));
    TriedGrows(turns, turn);
    assert all[..|turns|] == turns;
    forall k: nat | k < |all|
      ensures TurnOk(s, all[..k], all[k], c)
    {
      if k < |turns| {
        assert all[..k] == turns[..k] && all[k] == turns[k];
      }
    }
    if turn.Claimed? {
      ClaimedIsThere(s, turns, t, turn, c);
    }
  }

  lemma ClaimedIsThere(s: State, turns: seq<Turn>, t: State, turn: Turn, c: Call)
    requires t == Turned(s, turns, c) && TurnOk(s, turns, turn, c) && turn.Claimed?
    ensures turn.task in t.cleanups
  {
    hide Turned, Tried;
  }

  // Holdings of the accepted discharges, in order.
  function Reported(turns: seq<Turn>): seq<Handle> {
    if turns == [] then []
    else
      var rest, turn := Reported(turns[..|turns| - 1]), turns[|turns| - 1];
      if Completes(turn) then rest + [turn.work.task.holding] else rest
  }

  // An own finish on which the world said that this holding is gone.
  predicate SaidGone(turns: seq<Turn>, h: Handle) {
    exists k :: 0 <= k < |turns| && turns[k].Finished? && turns[k].work.task.holding == h &&
                (turns[k].outcome == OutcomeConfirmed || turns[k].outcome == OutcomeAbsent)
  }

  lemma {:induction false} ReportedExact(turns: seq<Turn>)
    ensures forall h :: h in Reported(turns) <==> SaidGone(turns, h)
  {
    if turns != [] {
      var n := |turns| - 1;
      ReportedExact(turns[..n]);
      forall h
        ensures SaidGone(turns, h) <==>
                SaidGone(turns[..n], h) || (Completes(turns[n]) && turns[n].work.task.holding == h)
      {
        if SaidGone(turns[..n], h) {
          var k :| 0 <= k < n && turns[..n][k].Finished? && turns[..n][k].work.task.holding == h &&
                   (turns[..n][k].outcome == OutcomeConfirmed || turns[..n][k].outcome == OutcomeAbsent);
          assert turns[k] == turns[..n][k];
        }
        if SaidGone(turns, h) {
          var k :| 0 <= k <= n && turns[k].Finished? && turns[k].work.task.holding == h &&
                   (turns[k].outcome == OutcomeConfirmed || turns[k].outcome == OutcomeAbsent);
          assert k < n ==> turns[k] == turns[..n][k];
        }
      }
    }
  }

  predicate Completes(turn: Turn) {
    turn.Finished? && turn.outcome.Discharges()
  }

  // The ledger refuses this turn, because the record is no longer the one the call has seen.
  ghost predicate Outrun(s: State, turns: seq<Turn>, c: Call, k: nat)
    requires k < |turns|
  {
    && (turns[k].Abandoned? || turns[k].Finished?)
    && Apply(Turned(s, turns[..k], c), OpOf(turns[k], c)).result == Err(StaleAttempt)
  }

  ghost predicate NeverOutrun(s: State, turns: seq<Turn>, c: Call) {
    forall k: nat {:trigger turns[k]} :: k < |turns| && !turns[k].Foreign? ==>
      Apply(Turned(s, turns[..k], c), OpOf(turns[k], c)).result.Ok?
  }

  // Why a claim hands out nothing.
  predicate Busy(s: State, id: nat) {
    && id in s.cleanups
    && (s.cleanups[id].state.Running? || s.cleanups[id].state.Done? || HasOccupyingChild(s.holdings, id))
  }

  // The task was handed to this call, or it was busy when the call asked for it.
  ghost predicate Settled(s: State, turns: seq<Turn>, from: nat, id: nat, c: Call) {
    || id in Tried(turns)
    || exists k: nat {:trigger turns[..k]} :: from <= k <= |turns| && Busy(Turned(s, turns[..k], c), id)
  }

  lemma SettledStays(s: State, turns: seq<Turn>, more: seq<Turn>, from: nat, id: nat, c: Call)
    requires turns <= more && Settled(s, turns, from, id, c)
    ensures Settled(s, more, from, id, c)
  {
    hide Turned, Busy;
    if id in Tried(turns) {
      var k :| 0 <= k < |turns| && turns[k].Claimed? && turns[k].task == id;
      assert more[k] == turns[k];
    } else {
      var k: nat :| from <= k <= |turns| && Busy(Turned(s, turns[..k], c), id);
      assert more[..k] == turns[..k];
    }
  }

  // From turn `p` on the call completed nothing, and every task that was open at turn `q` and
  // allowed at turn `p` is settled.
  ghost predicate LastPass(s: State, turns: seq<Turn>, scope: Option<set<nat>>, c: Call, p: nat, q: nat) {
    && p <= q <= |turns|
    && Reported(turns) == Reported(turns[..p])
    && PassSettles(s, turns, scope, c, p, q)
  }

  ghost predicate PassSettles(s: State, turns: seq<Turn>, scope: Option<set<nat>>, c: Call, p: nat, q: nat)
    requires p <= q <= |turns|
  {
    var allowed, listed := Turned(s, turns[..p], c).holdings, Turned(s, turns[..q], c).cleanups;
    forall id {:trigger listed[id]} ::
      id in listed && !listed[id].state.Done? && Runner.Allowed(allowed, scope, id) ==>
      Settled(s, turns, q, id, c)
  }

  lemma IdsAreFew(ids: set<nat>, n: nat)
    requires forall id :: id in ids ==> id < n
    ensures |ids| <= n
  {
    if n > 0 {
      IdsAreFew(ids - {n - 1}, n - 1);
    }
  }

  // Ids are at most I64_MAX, so however many tasks others add, the call tries boundedly many.
  lemma TriedBounded(s: State, turns: seq<Turn>, t: State, c: Call)
    requires Underway(s, turns, t, c)
    ensures |Tried(turns)| <= I64_MAX + 1
  {
    Runner.TasksBelowNext(t);
    IdsAreFew(Tried(turns), t.nextId);
  }

  // Whatever others do while the world acts, the call still holds its work, and the finish is
  // refused only when the attempt was ended by someone else.
  lemma FinishAfterOthers(s: State, turns: seq<Turn>, t: State, work: CleanupWork, c: Call)
    requires Underway(s, turns, t, c) && Holds(s, turns, work, c)
    ensures var r := Finish(t, work, Decide(c.world, work), c.now).result; r.Ok? || r == Err(StaleAttempt)
    ensures TurnOk(s, turns, Finished(work, Decide(c.world, work)), c)
  {
    hide Valid, Finish, Claim, Turned, OthersOnly;
    var i: nat :| ClaimedAt(s, turns, work, c, i);
    TurnsSplit(s, turns, c, i, |turns|);
    assert turns[..|turns|] == turns;
    TurnsAreOps(s, turns[..i], c);
    Runs.RunPreserves(s, OpsOf(turns[..i], c));
    FinishAnswers(Turned(s, turns[..i], c), work.task.id, c.worker, c.now, OpsOf(turns[i + 1..], c),
      Decide(c.world, work), c.now);
  }

  lemma HeldMeanwhile(s: State, before: seq<Turn>, turns: seq<Turn>, work: CleanupWork, c: Call)
    requires Claim(Turned(s, before, c), work.task.id, c.worker, c.now).result == Ok(Some(work))
    requires before + [Claimed(work.task.id)] <= turns && OthersOnly(turns, |before| + 1)
    ensures Holds(s, turns, work, c)
  {
    hide Claim, Turned;
    assert turns[..|before|] == before;
    assert turns[|before|] == (before + [Claimed(work.task.id)])[|before|];
    assert ClaimedAt(s, turns, work, c, |before|);
  }

  lemma KeysStay(s: State, t: State)
    requires Evolves(s, t)
    ensures s.cleanups.Keys <= t.cleanups.Keys
  {
  }

  lemma NothingYet(s: State, c: Call)
    ensures Tried([]) == {} && Reported([]) == [] && NeverOutrun(s, [], c)
  {
  }

  lemma AbandonIsTurn(s: State, turns: seq<Turn>, t: State, record: CleanupRecord, c: Call)
    requires record.state.Running? && Tried(turns) == {}
    ensures TurnOk(s, turns, Abandoned(record), c)
    ensures var r := Abandon(t, record, c.now).result; r.Ok? || r == Err(StaleAttempt)
  {
    hide Tried;
  }

  lemma TriedSettles(s: State, turns: seq<Turn>, from: nat, id: nat, c: Call)
    requires id in Tried(turns)
    ensures Settled(s, turns, from, id, c)
  {
  }

  lemma SettledSince(s: State, turns: seq<Turn>, later: nat, from: nat, id: nat, c: Call)
    requires Settled(s, turns, later, id, c) && from <= later
    ensures Settled(s, turns, from, id, c)
  {
    hide Turned, Busy, Tried;
  }

  ghost predicate ListSettled(s: State, turns: seq<Turn>, from: nat, tasks: seq<CleanupRecord>, rows: Rows,
                              scope: Option<set<nat>>, c: Call) {
    forall j {:trigger tasks[j]} ::
      0 <= j < |tasks| && !tasks[j].state.Done? && Runner.Allowed(rows, scope, tasks[j].id) ==>
      Settled(s, turns, from, tasks[j].id, c)
  }

  lemma SettledStill(s: State, before: seq<Turn>, turns: seq<Turn>, from: nat, tasks: seq<CleanupRecord>, rows: Rows,
                     scope: Option<set<nat>>, c: Call)
    requires before <= turns && ListSettled(s, before, from, tasks, rows, scope, c)
    ensures ListSettled(s, turns, from, tasks, rows, scope, c)
  {
    hide Settled, Runner.Allowed;
    forall j | 0 <= j < |tasks| && !tasks[j].state.Done? && Runner.Allowed(rows, scope, tasks[j].id)
      ensures Settled(s, turns, from, tasks[j].id, c)
    {
      SettledStays(s, before, turns, from, tasks[j].id, c);
    }
  }

  lemma OneMoreSettled(s: State, turns: seq<Turn>, from: nat, tasks: seq<CleanupRecord>, i: nat, rows: Rows,
                       scope: Option<set<nat>>, c: Call)
    requires i < |tasks| && ListSettled(s, turns, from, tasks[..i], rows, scope, c)
    requires !tasks[i].state.Done? && Runner.Allowed(rows, scope, tasks[i].id) ==>
               Settled(s, turns, from, tasks[i].id, c)
    ensures ListSettled(s, turns, from, tasks[..i + 1], rows, scope, c)
  {
    hide Settled, Runner.Allowed;
    assert tasks[..i + 1] == tasks[..i] + [tasks[i]];
  }

  lemma ListedTasks(s: State)
    requires Valid(s)
    ensures var tasks := Runner.TaskList(s.cleanups, s.nextId);
            forall i {:trigger tasks[i]} :: 0 <= i < |tasks| ==>
              tasks[i].id in s.cleanups && s.cleanups[tasks[i].id] == tasks[i] && tasks[i].holding.id == tasks[i].id
  {
    Runner.TasksBelowNext(s);
    Runner.TaskListExact(s, s.nextId);
  }

  lemma AllSettled(s: State, turns: seq<Turn>, listed: State, scope: Option<set<nat>>, c: Call, p: nat, q: nat)
    requires p <= q <= |turns| && Valid(listed) && listed == Turned(s, turns[..q], c)
    requires ListSettled(s, turns, q, Runner.TaskList(listed.cleanups, listed.nextId),
                         Turned(s, turns[..p], c).holdings, scope, c)
    ensures PassSettles(s, turns, scope, c, p, q)
  {
    hide Valid, Settled, Runner.Allowed, Turned;
    Runner.TasksBelowNext(listed);
    Runner.TaskListExact(listed, listed.nextId);
    var tasks := Runner.TaskList(listed.cleanups, listed.nextId);
    var allowed := Turned(s, turns[..p], c).holdings;
    forall id | id in listed.cleanups && !listed.cleanups[id].state.Done? && Runner.Allowed(allowed, scope, id)
      ensures Settled(s, turns, q, id, c)
    {
      assert Runner.ListsTask(tasks, id);
      var k :| 0 <= k < |tasks| && tasks[k].id == id;
      assert tasks[k] == listed.cleanups[id];
    }
  }

  // ----- the runner -----

  // Every finish of the call carries the world's answer.
  ghost predicate AllAnswered(s: State, turns: seq<Turn>, c: Call) {
    forall k: nat {:trigger turns[k]} :: k < |turns| && turns[k].Finished? ==> FinishAnswered(s, turns, c, k)
  }

  lemma UnderwayAnswered(s: State, turns: seq<Turn>, t: State, c: Call)
    requires Underway(s, turns, t, c)
    ensures AllAnswered(s, turns, c)
  {
    hide FinishAnswered, TurnOk, Valid;
    forall k: nat | k < |turns| && turns[k].Finished?
      ensures FinishAnswered(s, turns, c, k)
    {
      SharedAnswers(s, turns, c, k);
    }
  }

  // Only others acted since.
  predicate Passed(before: seq<Turn>, turns: seq<Turn>) {
    before <= turns && OthersOnly(turns, |before|)
  }

  lemma PassedKeeps(s: State, before: seq<Turn>, turns: seq<Turn>, turn: Turn, c: Call)
    requires Passed(before, turns) && turn.Foreign?
    ensures Passed(before, turns + [turn]) && Tried(turns + [turn]) == Tried(turns)
    ensures Reported(turns + [turn]) == Reported(turns)
    ensures NeverOutrun(s, turns, c) ==> NeverOutrun(s, turns + [turn], c)
  {
    hide Turned;
    TriedGrows(turns, turn);
    var all := turns + [turn];
    assert all[..|turns|] == turns;
    if NeverOutrun(s, turns, c) {
      AcceptedGrows(s, turns, turn, c);
    }
  }

  lemma AcceptedGrows(s: State, turns: seq<Turn>, turn: Turn, c: Call)
    requires NeverOutrun(s, turns, c)
    requires turn.Foreign? || Apply(Turned(s, turns, c), OpOf(turn, c)).result.Ok?
    ensures NeverOutrun(s, turns + [turn], c)
  {
    hide Turned, Apply;
    var all := turns + [turn];
    forall k: nat | k < |all| && !all[k].Foreign?
      ensures Apply(Turned(s, all[..k], c), OpOf(all[k], c)).result.Ok?
    {
      if k < |turns| {
        assert all[..k] == turns[..k] && all[k] == turns[k];
      } else {
        assert all[..k] == turns;
      }
    }
  }

  // The call had to stop: the attempts of a task are used up, or its last turn was refused.
  ghost predicate Stopped(s: State, turns: seq<Turn>, c: Call, why: LedgerError) {
    || (why == OutOfRange && exists id :: Alone.AtLimit(Turned(s, turns, c), id))
    || (why == StaleAttempt && turns != [] && Outrun(s, turns, c, |turns| - 1))
  }

  lemma UnderwayIsTurned(s: State, turns: seq<Turn>, t: State, c: Call)
    requires Underway(s, turns, t, c)
    ensures t == Turned(s, turns, c) && Valid(t)
  {
  }

  // An own turn other than a claim is refused only as stale.
  lemma RefusedLast(s: State, turns: seq<Turn>, t: State, turn: Turn, c: Call)
    requires t == Turned(s, turns, c)
    ensures (turn.Abandoned? || turn.Finished?) && Apply(t, OpOf(turn, c)).result == Err(StaleAttempt) ==>
              Stopped(s, turns + [turn], c, StaleAttempt)
  {
    hide Turned, Apply;
    assert (turns + [turn])[..|turns|] == turns;
  }

  lemma StoppedAtLimit(s: State, turns: seq<Turn>, t: State, c: Call, id: nat)
    requires Underway(s, turns, t, c) && Alone.AtLimit(t, id)
    ensures Stopped(s, turns, c, OutOfRange)
  {
    hide Turned;
  }

  lemma SettledNow(s: State, turns: seq<Turn>, t: State, from: nat, id: nat, c: Call)
    requires Underway(s, turns, t, c) && Busy(t, id) && from <= |turns|
    ensures Settled(s, turns, from, id, c)
  {
    hide Turned, Busy;
    assert turns[..|turns|] == turns;
  }

  lemma ClaimIsTurn(s: State, turns: seq<Turn>, t: State, work: CleanupWork, c: Call)
    requires Underway(s, turns, t, c) && work.task.id !in Tried(turns)
    requires Claim(t, work.task.id, c.worker, c.now).result == Ok(Some(work))
    ensures TurnOk(s, turns, Claimed(work.task.id), c)
  {
    hide Turned, Tried, Claim;
  }

  datatype Attempted = Refused(why: LedgerError) | Waiting | Acted(completed: Option<Handle>)

  class SharedStore {
    const ledger: Ledger
    // What others do at each point where they get to act.
    const others: nat -> seq<Op>
    const call: Call
    var moment: nat
    ghost const start: State
    ghost var turns: seq<Turn>

    ghost predicate Valid()
      reads this, ledger
    {
      ledger.Valid() && Underway(start, turns, ledger.View(), call)
    }

    constructor (ledger: Ledger, others: nat -> seq<Op>, call: Call)
      requires ledger.Valid()
      ensures Valid() && this.ledger == ledger && this.call == call && start == ledger.View() && turns == []
    {
      this.ledger, this.others, this.call, moment := ledger, others, call, 0;
      start, turns := ledger.View(), [];
    }

    method Others()
      requires Valid()
      modifies this, ledger
      ensures Valid() && Passed(old(turns), turns) && Tried(turns) == Tried(old(turns))
      ensures Reported(turns) == Reported(old(turns))
      ensures NeverOutrun(start, old(turns), call) ==> NeverOutrun(start, turns, call)
      ensures old(ledger.cleanups).Keys <= ledger.cleanups.Keys
    {
      hide LedgerState.Valid, UniqueIds, Underway, Tried, Reported, NeverOutrun, Apply, Evolves;
      var ops := others(moment);
      moment := moment + 1;
      for k := 0 to |ops|
        invariant Valid() && Passed(old(turns), turns) && Tried(turns) == Tried(old(turns))
        invariant Reported(turns) == Reported(old(turns))
        invariant NeverOutrun(start, old(turns), call) ==> NeverOutrun(start, turns, call)
        invariant old(ledger.cleanups).Keys <= ledger.cleanups.Keys
      {
        ghost var u := ledger.View();
        OneMoreTurn(start, turns, ledger.View(), Foreign(ops[k]), call);
        PassedKeeps(start, old(turns), turns, Foreign(ops[k]), call);
        var accepted := Storage.Perform(ledger, ops[k], ledger.identity + 1);
        KeysStay(u, ledger.View());
        turns := turns + [Foreign(ops[k])];
      }
    }

    // One own transaction: its turn is recorded with its effect.
    ghost method Took(turn: Turn, before: State)
      requires ledger.Valid() && Underway(start, turns, before, call) && TurnOk(start, turns, turn, call)
      requires ledger.View() == Apply(before, OpOf(turn, call)).state
      modifies this`turns
      ensures Valid() && turns == old(turns) + [turn]
      ensures Tried(turns) == Tried(old(turns)) + (if turn.Claimed? then {turn.task} else {})
      ensures Reported(turns) == Reported(old(turns)) + (if Completes(turn) then [turn.work.task.holding] else [])
      ensures before.cleanups.Keys <= ledger.cleanups.Keys
      ensures (turn.Abandoned? || turn.Finished?) && Apply(before, OpOf(turn, call)).result == Err(StaleAttempt) ==>
                Stopped(start, turns, call, StaleAttempt)
      ensures NeverOutrun(start, old(turns), call) && Apply(before, OpOf(turn, call)).result.Ok? ==>
                NeverOutrun(start, turns, call)
    {
      hide LedgerState.Valid, UniqueIds, NeverOutrun, Apply, TurnOk, Tried, Evolves, Stopped, Underway;
      OneMoreTurn(start, turns, before, turn, call);
      TriedGrows(turns, turn);
      if NeverOutrun(start, turns, call) && Apply(before, OpOf(turn, call)).result.Ok? {
        UnderwayIsTurned(start, turns, before, call);
        AcceptedGrows(start, turns, turn, call);
      }
      assert (turns + [turn])[..|turns|] == turns;
      UnderwayIsTurned(start, turns, before, call);
      KeysStay(before, ledger.View());
      RefusedLast(start, turns, before, turn, call);
      turns := turns + [turn];
    }

    // With a claim in hand act on the world, then record the outcome.
    method Act(work: CleanupWork) returns (r: Result<Option<Handle>, LedgerError>)
      requires Valid() && turns != [] && turns[|turns| - 1] == Claimed(work.task.id)
      requires Claim(Turned(start, turns[..|turns| - 1], call), work.task.id, call.worker, call.now).result ==
                 Ok(Some(work))
      modifies this, ledger
      ensures Valid() && old(turns) <= turns && Tried(turns) == Tried(old(turns))
      ensures old(ledger.cleanups).Keys <= ledger.cleanups.Keys
      ensures match r
              case Err(why) => Stopped(start, turns, call, why)
              case Ok(done) =>
                && (NeverOutrun(start, old(turns), call) ==> NeverOutrun(start, turns, call))
                && Reported(turns) == Reported(old(turns)) + (if done.Some? then [done.value] else [])
    {
      hide LedgerState.Valid, UniqueIds, Underway, Tried, NeverOutrun, Claim, Finish, Reported, TurnOk, Stopped, Turned;
      hide Holds, Evolves;
      ghost var before := turns[..|turns| - 1];
      Others();
      HeldMeanwhile(start, before, turns, work, call);
      var outcome;
      match work.target {
        case AccountingOnly => outcome := OutcomeConfirmed;
        case Unresolved(_, reason) => outcome := OutcomeBlocked(reason);
        case _ => outcome := call.world(work);
      }
      ghost var t := ledger.View();
      FinishAfterOthers(start, turns, t, work, call);
      var finished := Cleanup.FinishCleanup(ledger, work, outcome, call.now);
      Took(Finished(work, outcome), t);
      if finished.Err? {
        return Err(finished.error);
      }
      return Ok(if outcome.Discharges() then Some(work.task.holding) else None);
    }

    method TryTask(id: nat) returns (r: Attempted)
      requires Valid() && id !in Tried(turns) && id in ledger.cleanups
      modifies this, ledger
      ensures Valid() && old(turns) <= turns
      ensures old(ledger.cleanups).Keys <= ledger.cleanups.Keys
      ensures NeverOutrun(start, old(turns), call) && !r.Refused? ==> NeverOutrun(start, turns, call)
      ensures match r
              case Refused(why) => Stopped(start, turns, call, why)
              case Waiting =>
                && Tried(turns) == Tried(old(turns)) && Reported(turns) == Reported(old(turns))
                && Settled(start, turns, |old(turns)|, id, call)
              case Acted(done) =>
                && Tried(turns) == Tried(old(turns)) + {id}
                && Reported(turns) == Reported(old(turns)) + (if done.Some? then [done.value] else [])
    {
      hide LedgerState.Valid, UniqueIds, Underway, Tried, NeverOutrun, HasOccupyingChild, Claim, Reported, TurnOk;
      hide Stopped, Settled;
      Others();
      ghost var t := ledger.View();
      UnderwayIsTurned(start, turns, t, call);
      Alone.ClaimAnswers(t, id, call);
      var claimed := Cleanup.ClaimCleanup(ledger, id, call.worker, call.now);
      if claimed.Err? {
        StoppedAtLimit(start, turns, t, call, id);
        return Refused(claimed.error);
      }
      if claimed.value.None? {
        SettledNow(start, turns, t, |old(turns)|, id, call);
        return Waiting;
      }
      ghost var before := turns;
      ClaimIsTurn(start, turns, t, claimed.value.value, call);
      Took(Claimed(id), t);
      assert turns[..|turns| - 1] == before;
      var acted := Act(claimed.value.value);
      return match acted case Err(why) => Refused(why) case Ok(done) => Acted(done);
    }

    // Every listed attempt whose worker is gone is abandoned, unless it ended in the meantime.
    method Recover(gone: CleanupRecord -> bool) returns (error: Option<LedgerError>)
      requires Valid() && turns == []
      modifies this, ledger
      ensures Valid() && Tried(turns) == {} && Reported(turns) == []
      ensures error.None? ==> NeverOutrun(start, turns, call)
      ensures error.Some? ==> Stopped(start, turns, call, error.value)
    {
      hide LedgerState.Valid, UniqueIds, Underway, Tried, Reported, NeverOutrun, TurnOk, Stopped, Abandon;
      hide Runner.TaskList;
      assert Tried([]) == {} && Reported([]) == [] && NeverOutrun(start, [], call) by { NothingYet(start, call); }
      Others();
      var tasks := Runner.CleanupTasks(ledger);
      for k := 0 to |tasks|
        invariant Valid() && Tried(turns) == {} && Reported(turns) == [] && NeverOutrun(start, turns, call)
      {
        if Runner.Interruptible(tasks[k], gone) {
          Others();
          ghost var t := ledger.View();
          var abandoned := Cleanup.AbandonCleanup(ledger, tasks[k], call.now);
          AbandonIsTurn(start, turns, t, tasks[k], call);
          Took(Abandoned(tasks[k]), t);
          if abandoned.Err? {
            return Some(abandoned.error);
          }
        }
      }
      return None;
    }

    // Every listed task that is open, permitted and not tried yet.
    method TryListed(tasks: seq<CleanupRecord>, scope: Option<set<nat>>, permitted: set<nat>, attempted: set<nat>,
                     ghost rows: Rows)
      returns (error: Option<LedgerError>, tried: set<nat>, completed: seq<Handle>)
      requires Valid() && attempted == Tried(turns) && NeverOutrun(start, turns, call)
      requires forall i {:trigger tasks[i]} :: 0 <= i < |tasks| ==>
                 tasks[i].id in ledger.cleanups && tasks[i].holding.id == tasks[i].id
      requires forall x :: Runner.Allowed(rows, scope, x) <==> scope.None? || x in permitted
      modifies this, ledger
      ensures Valid() && old(turns) <= turns
      ensures error.Some? ==> Stopped(start, turns, call, error.value)
      ensures error.None? ==>
                && NeverOutrun(start, turns, call) && tried == Tried(turns)
                && |tried| >= |attempted| + |completed|
                && Reported(turns) == Reported(old(turns)) + completed
                && ListSettled(start, turns, |old(turns)|, tasks, rows, scope, call)
    {
      hide LedgerState.Valid, UniqueIds, Underway, Tried, Reported, NeverOutrun, Stopped, Settled, Runner.Allowed;
      tried, completed, error := attempted, [], None;
      for i := 0 to |tasks|
        invariant Valid() && old(turns) <= turns && tried == Tried(turns) && NeverOutrun(start, turns, call)
        invariant |tried| >= |attempted| + |completed|
        invariant Reported(turns) == Reported(old(turns)) + completed
        invariant old(ledger.cleanups).Keys <= ledger.cleanups.Keys
        invariant ListSettled(start, turns, |old(turns)|, tasks[..i], rows, scope, call)
      {
        var task := tasks[i];
        ghost var before := turns;
        if !task.state.Done? && (scope.None? || task.holding.id in permitted) && task.id !in tried {
          var result := TryTask(task.id);
          match result {
            case Refused(why) =>
              error := Some(why);
              return;
            case Waiting =>
              SettledSince(start, turns, |before|, |old(turns)|, task.id, call);
            case Acted(done) =>
              tried := tried + {task.id};
              if done.Some? {
                completed := completed + [done.value];
              }
          }
        }
        SettledStill(start, before, turns, |old(turns)|, tasks[..i], rows, scope, call);
        if task.id in tried {
          TriedSettles(start, turns, |old(turns)|, task.id, call);
        }
        OneMoreSettled(start, turns, |old(turns)|, tasks, i, rows, scope, call);
      }
      assert tasks[..|tasks|] == tasks;
    }

    // One pass over the tasks of one listing, within the scope as it was just before.
    method Pass(scope: Option<set<nat>>, attempted: set<nat>)
      returns (error: Option<LedgerError>, tried: set<nat>, completed: seq<Handle>, ghost p: nat, ghost q: nat)
      requires Valid() && attempted == Tried(turns) && NeverOutrun(start, turns, call)
      modifies this, ledger
      ensures Valid() && old(turns) <= turns && p <= q <= |turns|
      ensures error.Some? ==> Stopped(start, turns, call, error.value)
      ensures error.None? ==>
                && NeverOutrun(start, turns, call) && tried == Tried(turns)
                && |tried| >= |attempted| + |completed|
                && Reported(turns) == Reported(old(turns)) + completed
                && Reported(turns[..p]) == Reported(old(turns))
                && PassSettles(start, turns, scope, call, p, q)
    {
      hide LedgerState.Valid, UniqueIds, Underway, Tried, Reported, NeverOutrun, Stopped, Settled, Runner.TaskList;
      hide Runner.IsPermitted, PassSettles, ListSettled;
      Others();
      ghost var first := turns;
      ghost var rows := ledger.View().holdings;
      UnderwayIsTurned(start, turns, ledger.View(), call);
      var permitted := {};
      if scope.Some? {
        permitted := Runner.Permitted(ledger, scope.value);
      }
      Alone.AllowedBy(rows, scope, permitted);
      Others();
      ghost var listing := turns;
      ghost var listed := ledger.View();
      p, q := |first|, |listing|;
      UnderwayIsTurned(start, turns, listed, call);
      var tasks := Runner.CleanupTasks(ledger);
      ListedTasks(listed);
      error, tried, completed := TryListed(tasks, scope, permitted, attempted, rows);
      if error.None? {
        assert turns[..q] == listing && turns[..p] == first;
        AllSettled(start, turns, listed, scope, call, p, q);
      }
    }

    // The runner among others. It always ends. In the order of its turns it was handed no task
    // twice and finished what it held; when it succeeds none of its turns was refused, it reports
    // exactly what it discharged, and in its last pass every open task it may touch was settled.
    method RunCleanup(scope: Option<set<nat>>, gone: CleanupRecord -> bool)
      returns (r: Result<Alone.CleanupReport, LedgerError>, ghost p: nat, ghost q: nat, ghost n: nat)
      requires Valid() && turns == []
      modifies this, ledger
      ensures Valid() && AllAnswered(start, turns, call)
      ensures match r
              case Err(why) => Stopped(start, turns, call, why)
              case Ok(report) =>
                && NeverOutrun(start, turns, call)
                && n <= |turns| && OthersOnly(turns, n) && LastPass(start, turns[..n], scope, call, p, q)
                && report.completed == Reported(turns)
                && (forall h :: h in report.completed <==> SaidGone(turns, h))
                && report.pending == Alone.OpenTasks(Runner.TaskList(ledger.cleanups, ledger.nextId), scope)
    {
      hide LedgerState.Valid, UniqueIds, Underway, Tried, Reported, NeverOutrun, Stopped, PassSettles;
      hide Runner.TaskList, Alone.OpenTasks, AllAnswered, SaidGone;
      p, q, n := 0, 0, 0;
      var error := Recover(gone);
      if error.Some? {
        UnderwayAnswered(start, turns, ledger.View(), call);
        return Err(error.value), p, q, n;
      }
      var attempted: set<nat> := {};
      var completed: seq<Handle> := [];
      var progress := true;
      while progress
        invariant Valid() && NeverOutrun(start, turns, call) && attempted == Tried(turns)
        invariant completed == Reported(turns) && |attempted| <= I64_MAX + 1
        invariant !progress ==> LastPass(start, turns, scope, call, p, q)
        decreases I64_MAX + 1 - |attempted|, progress
      {
        var failed, tried, more, p', q' := Pass(scope, attempted);
        p, q := p', q';
        if failed.Some? {
          UnderwayAnswered(start, turns, ledger.View(), call);
          return Err(failed.value), p, q, n;
        }
        TriedBounded(start, turns, ledger.View(), call);
        attempted, completed, progress := tried, completed + more, more != [];
      }
      n := |turns|;
      ghost var ran := turns;
      Others();
      assert turns[..n] == ran;
      UnderwayAnswered(start, turns, ledger.View(), call);
      ReportedExact(turns);
      var pending := Alone.Pending(ledger, scope);
      return Ok(Alone.CleanupReport(completed, pending)), p, q, n;
    }
  }
}
