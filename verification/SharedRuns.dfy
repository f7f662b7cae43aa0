// Cleanup among other transactions: several workers claim and finish tasks while anything else
// happens to the ledger in between.

module SharedRuns {
  import opened Prelude
  import opened LedgerTypes
  import opened LedgerState
  import opened LedgerOps
  import opened LedgerInvariant
  import opened RunnerSpec
  import opened LedgerAnswers
  import opened CleanupAnswers
  import Runs = LedgerRuns

  // ----- quiet below a holding -----

  // A holding on its way out with nothing occupying strictly below it.
  ghost predicate Quiet(s: State, top: nat) {
    && top in s.holdings && !s.holdings[top].state.Active?
    && forall d {:trigger Below(s.holdings, d, top)} ::
         Below(s.holdings, d, top) && d != top ==> !Occupying(s.holdings, d)
  }

  // A row that already existed was already below, and no new row hangs below a quiet holding.
  lemma {:induction false} NothingNewBelow(s: State, t: State, top: nat, d: nat, n: nat)
    requires RowsOk(s) && Quiet(s, top) && Evolves(s, t) && Runs.StepShape(s, t)
    requires BelowIn(t.holdings, d, top, n)
    ensures d in s.holdings && BelowIn(s.holdings, d, top, n)
    decreases n
  {
    hide RowOk;
    if n > 0 {
      var p := t.holdings[d].parent.value;
      NothingNewBelow(s, t, top, p, n - 1);
      assert Below(s.holdings, p, top);
      if d in s.holdings {
        assert RowEvolves(s.holdings[d], t.holdings[d]);
      }
    }
  }

  lemma QuietStep(s: State, t: State, top: nat)
    requires RowsOk(s) && Quiet(s, top) && Evolves(s, t) && Runs.StepShape(s, t)
    ensures Quiet(t, top)
  {
    hide RowsOk, Runs.StepShape, BelowIn;
    assert RowEvolves(s.holdings[top], t.holdings[top]);
    forall d | Below(t.holdings, d, top) && d != top
      ensures !Occupying(t.holdings, d)
    {
      var n: nat :| BelowIn(t.holdings, d, top, n);
      NothingNewBelow(s, t, top, d, n);
      assert Below(s.holdings, d, top);
      assert RowEvolves(s.holdings[d], t.holdings[d]);
    }
  }

  // Whatever happens afterwards, nothing below a quiet holding ever occupies again.
  lemma {:induction false} QuietForever(s: State, ops: seq<Op>, top: nat)
    requires Valid(s) && Quiet(s, top)
    ensures Quiet(Runs.Exec(s, ops), top)
    decreases |ops|
  {
    hide Valid, Apply, Evolves, Quiet, Runs.StepShape;
    if ops != [] {
      var t := Apply(s, ops[0]).state;
      Runs.OpPreserves(s, ops[0]);
      Runs.OpShape(s, ops[0]);
      ValidMeansRows(s);
      QuietStep(s, t, top);
      QuietForever(t, ops[1..], top);
    }
  }

  lemma ValidMeansRows(s: State)
    requires Valid(s)
    ensures RowsOk(s) && TasksOk(s)
  {
  }

  // ----- claims -----

  // The claim of this task hands out work.
  predicate HandsOut(s: State, id: nat, worker: HostWitness, now: Timestamp) {
    var r := Claim(s, id, worker, now).result;
    r.Ok? && r.value.Some?
  }

  lemma ClaimQuiets(s: State, id: nat, worker: HostWitness, now: Timestamp)
    requires Valid(s) && HandsOut(s, id, worker, now)
    ensures Quiet(Claim(s, id, worker, now).state, id)
    ensures Claim(s, id, worker, now).state.holdings == s.holdings
    ensures id in s.holdings && s.holdings[id].state == Retiring(id)
  {
    hide Valid, Below, HasOccupyingChild;
    ValidMeansRows(s);
    assert TaskOk(s, id);
    assert RowOk(s, id);
    Runs.NoOccupyingBelow(s, id);
  }

  // Children first among all workers: once a task was claimed, no task of a holding below it is
  // ever handed out again, whatever anyone does in between.
  lemma ClaimedChildrenFirst(s: State, id: nat, worker: HostWitness, now: Timestamp, between: seq<Op>, d: nat,
                             other: HostWitness, later: Timestamp)
    requires Valid(s) && HandsOut(s, id, worker, now)
    ensures var t := Runs.Exec(Claim(s, id, worker, now).state, between);
            Below(t.holdings, d, id) && d != id ==> !HandsOut(t, d, other, later)
  {
    hide Valid, Below, HandsOut, Claim, Evolves;
    ClaimQuiets(s, id, worker, now);
    ClaimPreserves(s, id, worker, now);
    var mid := Claim(s, id, worker, now).state;
    QuietForever(mid, between, id);
    Runs.RunPreserves(mid, between);
    var t := Runs.Exec(mid, between);
    if Below(t.holdings, d, id) && d != id && HandsOut(t, d, other, later) {
      ClaimQuiets(t, d, other, later);
    }
  }

  // ----- discharges -----

  // The finish of this work is accepted and settles its task for good.
  predicate Discharges(s: State, work: CleanupWork, outcome: CleanupOutcome, now: Timestamp) {
    outcome.Discharges() && Finish(s, work, outcome, now).result.Ok?
  }

  lemma DoneStays(s: State, ops: seq<Op>, id: nat)
    requires Valid(s) && id in s.cleanups && s.cleanups[id].state.Done?
    ensures var t := Runs.Exec(s, ops); id in t.cleanups && t.cleanups[id] == s.cleanups[id]
  {
    Runs.RunPreserves(s, ops);
    assert TaskEvolves(s.cleanups[id], Runs.Exec(s, ops).cleanups[id]);
  }

  // A task is discharged once: after that no claim hands it out, and no finish of any work value
  // of it is accepted, whoever holds it and whatever happens in between.
  lemma TaskDischargedOnce(s: State, work: CleanupWork, outcome: CleanupOutcome, now: Timestamp, between: seq<Op>,
                           worker: HostWitness, again: CleanupWork, result: CleanupOutcome, later: Timestamp)
    requires Valid(s) && Discharges(s, work, outcome, now) && again.task.id == work.task.id
    ensures var t := Runs.Exec(Finish(s, work, outcome, now).state, between);
            && !HandsOut(t, work.task.id, worker, later)
            && Finish(t, again, result, later) == Step(t, Err(StaleAttempt))
  {
    hide Valid, Evolves, Apply;
    FinishPreserves(s, work, outcome, now);
    FinishSettles(s, work, outcome, now);
    DoneStays(Finish(s, work, outcome, now).state, between, work.task.id);
  }

  lemma FinishSettles(s: State, work: CleanupWork, outcome: CleanupOutcome, now: Timestamp)
    requires Discharges(s, work, outcome, now)
    ensures var t := Finish(s, work, outcome, now).state;
            work.task.id in t.cleanups && t.cleanups[work.task.id].state.Done?
  {
  }

  // ----- one call of the runner among other transactions -----

  // What a call does, transaction by transaction, with the transactions of others in between.
  // A claim that hands out nothing leaves no turn.
  datatype Turn =
    | Abandoned(record: CleanupRecord)
    | Claimed(task: nat)
    | Finished(work: CleanupWork, outcome: CleanupOutcome)
    | Foreign(op: Op)

  function OpOf(t: Turn, c: Call): Op {
    match t
    case Abandoned(record) => OpAbandon(record, c.now)
    case Claimed(id) => OpClaim(id, c.worker, c.now)
    case Finished(work, outcome) => OpFinish(work, outcome, c.now)
    case Foreign(op) => op
  }

  ghost function Turned(s: State, turns: seq<Turn>, c: Call): State {
    if turns == [] then s
    else Apply(Turned(s, turns[..|turns| - 1], c), OpOf(turns[|turns| - 1], c)).state
  }

  // The tasks this call was handed work for: the set it keeps to try nothing twice.
  function Tried(turns: seq<Turn>): set<nat> {
    set k | 0 <= k < |turns| && turns[k].Claimed? :: turns[k].task
  }

  // The call holds this work: it claimed it, and since then only others acted.
  ghost predicate Holds(s: State, done: seq<Turn>, work: CleanupWork, c: Call) {
    exists i: nat :: ClaimedAt(s, done, work, c, i)
  }

  ghost predicate ClaimedAt(s: State, done: seq<Turn>, work: CleanupWork, c: Call, i: nat) {
    && i < |done| && done[i] == Claimed(work.task.id)
    && Claim(Turned(s, done[..i], c), work.task.id, c.worker, c.now).result == Ok(Some(work))
    && OthersOnly(done, i + 1)
  }

  predicate OthersOnly(turns: seq<Turn>, from: nat) {
    forall k :: from <= k < |turns| ==> turns[k].Foreign?
  }

  // A claim of the call hands out work for a task it did not try before; what it finishes is the
  // work it holds, with the outcome the world gave for it.
  ghost predicate TurnOk(s: State, done: seq<Turn>, t: Turn, c: Call) {
    match t
    case Abandoned(record) => record.state.Running? && Tried(done) == {}
    case Claimed(id) => id !in Tried(done) && HandsOut(Turned(s, done, c), id, c.worker, c.now)
    case Finished(work, outcome) => outcome == Decide(c.world, work) && Holds(s, done, work, c)
    case Foreign(_) => true
  }

  ghost predicate CallOk(s: State, turns: seq<Turn>, c: Call) {
    forall k: nat {:trigger turns[k]} :: k < |turns| ==> TurnOk(s, turns[..k], turns[k], c)
  }

  function OpsOf(turns: seq<Turn>, c: Call): seq<Op> {
    seq(|turns|, k requires 0 <= k < |turns| => OpOf(turns[k], c))
  }

  lemma {:induction false} TurnsAreOps(s: State, turns: seq<Turn>, c: Call)
    ensures Turned(s, turns, c) == Runs.Exec(s, OpsOf(turns, c))
  {
    hide Apply;
    if turns != [] {
      var n := |turns| - 1;
      TurnsAreOps(s, turns[..n], c);
      var last := OpOf(turns[n], c);
      assert OpsOf(turns, c) == OpsOf(turns[..n], c) + [last];
      Runs.ExecAppend(s, OpsOf(turns[..n], c), [last]);
      assert [last][1..] == [];
    }
  }

  // No task is handed out twice in one call, and a holding is acted on only after everything
  // below it that the call acts on, whatever other transactions come between its own.
  lemma SharedCallOrder(s: State, turns: seq<Turn>, c: Call, i: nat, j: nat)
    requires Valid(s) && CallOk(s, turns, c)
    requires i < j < |turns| && turns[i].Claimed? && turns[j].Claimed?
    ensures turns[i].task != turns[j].task
    ensures !Below(Turned(s, turns[..j], c).holdings, turns[j].task, turns[i].task)
  {
    hide Valid, Below, HandsOut, Claim, Evolves, Turned;
    assert turns[..j][i] == turns[i];
    assert turns[i].task in Tried(turns[..j]);
    var at := Turned(s, turns[..i], c);
    TurnsAreOps(s, turns[..i], c);
    Runs.RunPreserves(s, OpsOf(turns[..i], c));
    var between := OpsOf(turns[i + 1..j], c);
    TurnsSplit(s, turns, c, i, j);
    ClaimedChildrenFirst(at, turns[i].task, c.worker, c.now, between, turns[j].task, c.worker, c.now);
  }

  lemma TurnsSplit(s: State, turns: seq<Turn>, c: Call, i: nat, j: nat)
    requires i < j <= |turns| && turns[i].Claimed?
    ensures Turned(s, turns[..j], c) ==
            Runs.Exec(Claim(Turned(s, turns[..i], c), turns[i].task, c.worker, c.now).state,
                      OpsOf(turns[i + 1..j], c))
  {
    hide Claim;
    var front := OpsOf(turns[..i + 1], c);
    TurnsAreOps(s, turns[..j], c);
    TurnsAreOps(s, turns[..i + 1], c);
    assert turns[..i + 1][..i] == turns[..i];
    assert OpsOf(turns[..j], c) == front + OpsOf(turns[i + 1..j], c);
    Runs.ExecAppend(s, front, OpsOf(turns[i + 1..j], c));
  }

  // ----- finishing what was claimed -----

  lemma {:induction false} NotOwnParent(hs: Rows, id: nat, n: nat)
    requires RootedIn(hs, id, n)
    ensures hs[id].parent != Some(id)
    decreases n
  {
    if hs[id].parent == Some(id) {
      NotOwnParent(hs, id, n - 1);
    }
  }

  lemma QuietHasNoChild(s: State, top: nat)
    requires Forest(s.holdings) && Quiet(s, top)
    ensures !HasOccupyingChild(s.holdings, top)
  {
    forall d | ChildOf(s.holdings, d, top)
      ensures !Occupying(s.holdings, d)
    {
      assert Rooted(s.holdings, d);
      var n: nat :| RootedIn(s.holdings, d, n);
      NotOwnParent(s.holdings, d, n);
      assert BelowIn(s.holdings, top, top, 0);
      assert BelowIn(s.holdings, d, top, 1);
      assert Below(s.holdings, d, top);
    }
  }

  // Whatever others did meanwhile, the finish of claimed work is refused only when the record of
  // the attempt is no longer the one that was handed out.
  lemma FinishAnswers(s: State, id: nat, worker: HostWitness, now: Timestamp, between: seq<Op>,
                      outcome: CleanupOutcome, later: Timestamp)
    requires Valid(s) && HandsOut(s, id, worker, now)
    ensures var mid := Claim(s, id, worker, now);
            var work := mid.result.value.value;
            var t := Runs.Exec(mid.state, between);
            && work.task.id == id && id in t.cleanups
            && Finish(t, work, outcome, later).result ==
                 if t.cleanups[id] == work.task then Ok(()) else Err(StaleAttempt)
  {
    hide Valid, Evolves, Below, HasOccupyingChild, RowOk, Quiet;
    var mid := Claim(s, id, worker, now).state;
    ClaimQuiets(s, id, worker, now);
    ClaimPreserves(s, id, worker, now);
    QuietForever(mid, between, id);
    Runs.RunPreserves(mid, between);
    HandedOut(s, id, worker, now);
    FinishFits(mid, Runs.Exec(mid, between), Claim(s, id, worker, now).result.value.value, outcome, later);
  }

  lemma HandedOut(s: State, id: nat, worker: HostWitness, now: Timestamp)
    requires Valid(s) && HandsOut(s, id, worker, now)
    ensures var mid := Claim(s, id, worker, now);
            var work := mid.result.value.value;
            && work.task.id == id && work.task.state.Running?
            && id in mid.state.cleanups && mid.state.cleanups[id] == work.task
            && id in mid.state.holdings && mid.state.holdings[id].target == work.target
            && id in s.cleanups && mid.state.cleanups.Keys == s.cleanups.Keys
  {
    ValidMeansRows(s);
    assert TaskOk(s, id);
    assert RowOk(s, id);
  }

  lemma FinishFits(s: State, t: State, work: CleanupWork, outcome: CleanupOutcome, now: Timestamp)
    requires Valid(t) && Evolves(s, t) && Quiet(t, work.task.id)
    requires work.task.id in s.cleanups && s.cleanups[work.task.id] == work.task && work.task.state.Running?
    requires work.task.id in s.holdings && s.holdings[work.task.id].target == work.target
    ensures work.task.id in t.cleanups
    ensures Finish(t, work, outcome, now).result ==
            if t.cleanups[work.task.id] == work.task then Ok(()) else Err(StaleAttempt)
  {
    hide HasOccupyingChild, Quiet;
    var id := work.task.id;
    QuietHasNoChild(t, id);
    assert RowEvolves(s.holdings[id], t.holdings[id]) && TaskEvolves(s.cleanups[id], t.cleanups[id]);
    ValidMeansRows(t);
    assert TaskOk(t, id);
    assert RowOk(t, id);
  }

  // What an accepted finish of the call does: it holds the outcome the world gave for this work, and
  // the row retires exactly when the resource is gone.
  ghost predicate FinishAnswered(s: State, turns: seq<Turn>, c: Call, k: nat)
    requires k < |turns| && turns[k].Finished?
  {
    var work, outcome := turns[k].work, turns[k].outcome;
    var before := Turned(s, turns[..k], c);
    var step := Finish(before, work, outcome, c.now);
    && AsAnswered(Attempt(work, outcome), c)
    && (step.result.Ok? ==>
          && FinishedAs(before, step.state, work.task.id, outcome, c.now)
          && work.target == before.holdings[work.task.id].target
          && (step.state.holdings[work.task.id].state.Retired? <==> Gone(work, c)))
  }

  lemma SharedAnswers(s: State, turns: seq<Turn>, c: Call, k: nat)
    requires Valid(s) && CallOk(s, turns, c) && k < |turns| && turns[k].Finished?
    ensures FinishAnswered(s, turns, c, k)
  {
    hide Valid, Finish, Turned, FinishedAs, Evolves, Holds;
    assert TurnOk(s, turns[..k], turns[k], c);
    TurnsAreOps(s, turns[..k], c);
    Runs.RunPreserves(s, OpsOf(turns[..k], c));
    FinishExact(Turned(s, turns[..k], c), turns[k].work, turns[k].outcome, c.now);
    if Finish(Turned(s, turns[..k], c), turns[k].work, turns[k].outcome, c.now).result.Ok? {
      FinishedRow(Turned(s, turns[..k], c), turns[k].work, turns[k].outcome, c.now);
    }
  }

  lemma FinishedRow(s: State, work: CleanupWork, outcome: CleanupOutcome, now: Timestamp)
    requires Valid(s) && Finish(s, work, outcome, now).result.Ok?
    ensures var t := Finish(s, work, outcome, now).state;
            && work.task.id in s.holdings && work.task.id in t.holdings
            && work.target == s.holdings[work.task.id].target
            && (t.holdings[work.task.id].state.Retired? <==> outcome.OutcomeConfirmed? || outcome.OutcomeAbsent?)
  {
    hide Valid, Finish;
    FinishExact(s, work, outcome, now);
  }
}
