// Whole-run properties of the ledger: safety, attempt fencing and children-first retirement.

module LedgerRuns {
  import opened Prelude
  import opened LedgerTypes
  import opened LedgerState
  import opened LedgerOps
  import opened LedgerInvariant
  import opened Retirement

  // Every operation keeps the invariant, moves only forward, and changes nothing when refused.
  lemma OpPreserves(s: State, op: Op)
    requires Valid(s)
    ensures var step := Apply(s, op);
            Valid(step.state) && Evolves(s, step.state) && (step.result.Err? ==> step.state == s)
  {
    hide Valid, Evolves;
    match op {
      case OpRegisterClass(d) => RegisterClassPreserves(s, d);
      case OpCreatePool(k, c) => CreatePoolPreserves(s, k, c);
      case OpResizePool(k, c) => ResizePoolPreserves(s, k, c);
      case OpSettlePool(k, now) => SettlePoolPreserves(s, k, now);
      case OpDeclareInstantiation(c, p) => DeclareInstantiationPreserves(s, c, p);
      case OpGrant(k, r, t) => GrantPreserves(s, k, r, t);
      case OpTransfer(h, o, t) => TransferPreserves(s, h, o, t);
      case OpRelease(h, now) => ReleasePreserves(s, h, now);
      case OpRenew(h, l, now) => RenewPreserves(s, h, l, now);
      case OpRequestRetirement(h, k, now) => RequestRetirementPreserves(s, h, k, now);
      case OpClaim(t, w, now) => ClaimPreserves(s, t, w, now);
      case OpFinish(w, o, now) => FinishPreserves(s, w, o, now);
      case OpAbandon(r, now) => AbandonPreserves(s, r, now);
    }
  }

  lemma DeclareInstantiationPreserves(s: State, child: Name, parent: Name)
    requires Valid(s)
    ensures var t := DeclareInstantiation(s, child, parent).state; Valid(t) && Evolves(s, t)
  {
    var t := DeclareInstantiation(s, child, parent).state;
    ForwardKeepsStructure(s, t);
    RowsIgnoreTasks(s, t);
    TasksIgnoreInstantiations(s, t);
  }

  lemma EmptyValid()
    ensures Valid(Empty)
  {
  }

  // ----- runs -----

  ghost function Exec(s: State, ops: seq<Op>): State
    decreases |ops|
  {
    if ops == [] then s else Exec(Apply(s, ops[0]).state, ops[1..])
  }

  lemma {:induction false} RunPreserves(s: State, ops: seq<Op>)
    requires Valid(s)
    ensures Valid(Exec(s, ops)) && Evolves(s, Exec(s, ops))
    decreases |ops|
  {
    hide Valid, Evolves, Apply;
    if ops == [] {
      EvolvesReflexive(s);
    } else {
      OpPreserves(s, ops[0]);
      RunPreserves(Apply(s, ops[0]).state, ops[1..]);
      EvolvesTransitive(s, Apply(s, ops[0]).state, Exec(s, ops));
    }
  }

  // From the empty ledger, every reachable state is valid.
  lemma ReachableValid(ops: seq<Op>)
    ensures Valid(Exec(Empty, ops))
  {
    EmptyValid();
    RunPreserves(Empty, ops);
  }

  lemma {:induction false} ExecAppend(s: State, a: seq<Op>, b: seq<Op>)
    ensures Exec(s, a + b) == Exec(Exec(s, a), b)
    decreases |a|
  {
    hide Apply;
    if a == [] {
      assert a + b == b;
    } else {
      assert (a + b)[1..] == a[1..] + b;
      ExecAppend(Apply(s, a[0]).state, a[1..], b);
    }
  }

  // ----- attempt fencing -----

  // The attempt is over: a newer one was claimed, or this one is no longer running.
  predicate Spent(s: State, task: nat, attempt: nat) {
    && task in s.cleanups
    && (s.cleanups[task].attempts > attempt
        || (s.cleanups[task].attempts == attempt && !s.cleanups[task].state.Running?))
  }

  lemma SpentStays(s: State, ops: seq<Op>, task: nat, attempt: nat)
    requires Valid(s) && Spent(s, task, attempt)
    ensures Spent(Exec(s, ops), task, attempt)
  {
    RunPreserves(s, ops);
    var t := Exec(s, ops);
    assert TaskEvolves(s.cleanups[task], t.cleanups[task]);
  }

  lemma SpentRefuses(s: State, work: CleanupWork, outcome: CleanupOutcome, now: Timestamp)
    requires Spent(s, work.task.id, work.task.attempts)
    ensures Finish(s, work, outcome, now) == Step(s, Err(StaleAttempt))
    ensures Abandon(s, work.task, now) == Step(s, Err(StaleAttempt))
  {
  }

  // A claim hands out a work value that can be finished, and spends every older attempt.
  lemma ClaimedWorkIsLive(s: State, id: nat, worker: HostWitness, now: Timestamp, outcome: CleanupOutcome,
                          later: Timestamp)
    requires Valid(s) && Claim(s, id, worker, now).result.Ok? && Claim(s, id, worker, now).result.value.Some?
    ensures var t := Claim(s, id, worker, now).state;
            var work := Claim(s, id, worker, now).result.value.value;
            && work.task.id == id
            && Finish(t, work, outcome, later).result.Ok?
            && forall n: nat :: n < work.task.attempts ==> Spent(t, id, n)
  {
    assert TaskOk(s, id);
    assert RowOk(s, id);
  }

  predicate Settles(op: Op, work: CleanupWork) {
    (op.OpFinish? && op.work == work) || (op.OpAbandon? && op.observed == work.task)
  }

  lemma SettlingSpends(s: State, op: Op, work: CleanupWork)
    requires Settles(op, work) && Apply(s, op).result.Ok?
    ensures Spent(Apply(s, op).state, work.task.id, work.task.attempts)
  {
  }

  // Once an attempt was finished or abandoned, no work value of that attempt or an older
  // one ever changes the ledger again, whatever happens in between.
  lemma Fencing(s: State, op: Op, work: CleanupWork, ops: seq<Op>, stale: CleanupWork, outcome: CleanupOutcome,
                now: Timestamp)
    requires Valid(s) && Settles(op, work) && Apply(s, op).result.Ok?
    requires stale.task.id == work.task.id && stale.task.attempts <= work.task.attempts
    ensures var t := Exec(Apply(s, op).state, ops);
            && Finish(t, stale, outcome, now) == Step(t, Err(StaleAttempt))
            && Abandon(t, stale.task, now) == Step(t, Err(StaleAttempt))
  {
    OpPreserves(s, op);
    SettlingSpends(s, op, work);
    SpentStays(Apply(s, op).state, ops, work.task.id, work.task.attempts);
    SpentRefuses(Exec(Apply(s, op).state, ops), stale, outcome, now);
  }

  // In one run, one work value is accepted at most once.
  lemma DischargesAtMostOnce(ops: seq<Op>, i: nat, j: nat, work: CleanupWork)
    requires i < j < |ops| && Settles(ops[i], work) && Settles(ops[j], work)
    requires Apply(Exec(Empty, ops[..i]), ops[i]).result.Ok?
    ensures Apply(Exec(Empty, ops[..j]), ops[j]).result == Err(StaleAttempt)
  {
    var s := Exec(Empty, ops[..i]);
    ReachableValid(ops[..i]);
    var mid := ops[i + 1..j];
    assert ops[..j] == (ops[..i] + [ops[i]]) + mid;
    ExecAppend(Empty, ops[..i] + [ops[i]], mid);
    ExecAppend(Empty, ops[..i], [ops[i]]);
    assert Exec(s, [ops[i]]) == Apply(s, ops[i]).state by {
      assert [ops[i]][1..] == [];
    }
    if ops[j].OpFinish? {
      Fencing(s, ops[i], work, mid, work, ops[j].outcome, ops[j].now);
    } else {
      Fencing(s, ops[i], work, mid, work, OutcomeConfirmed, ops[j].now);
    }
  }

  // ----- running tasks have no occupying child -----

  ghost predicate RunningQuiet(s: State) {
    forall id {:trigger s.cleanups[id]} :: id in s.cleanups && s.cleanups[id].state.Running? ==>
      !HasOccupyingChild(s.holdings, id)
  }

  // New rows hang under active parents; new running tasks were claimed without occupying children.
  ghost predicate StepShape(s: State, t: State) {
    && (forall id {:trigger t.holdings[id]} :: id in t.holdings && id !in s.holdings && t.holdings[id].parent.Some? ==>
          t.holdings[id].parent.value in s.holdings && s.holdings[t.holdings[id].parent.value].state.Active?)
    && (forall id {:trigger t.cleanups[id]} :: id in t.cleanups && t.cleanups[id].state.Running? ==>
          || (id in s.cleanups && s.cleanups[id] == t.cleanups[id])
          || (t.holdings == s.holdings && !HasOccupyingChild(s.holdings, id)))
  }

  lemma OpShape(s: State, op: Op)
    requires Valid(s)
    ensures StepShape(s, Apply(s, op).state)
  {
    hide StepShape, Finish, Claim, Abandon, RequestRetirement, Grant;
    var t := Apply(s, op).state;
    match op {
      case OpGrant(k, r, target) => GrantShape(s, k, r, target);
      case OpRequestRetirement(h, k, now) => RetirementShape(s, h, k, now);
      case OpClaim(id, w, now) => ClaimShape(s, id, w, now);
      case OpFinish(w, o, now) => FinishShape(s, w, o, now);
      case OpAbandon(r, now) => AbandonShape(s, r, now);
      case _ => QuietShape(s, t);
    }
  }

  lemma QuietShape(s: State, t: State)
    requires t.holdings.Keys <= s.holdings.Keys && t.cleanups == s.cleanups
    ensures StepShape(s, t)
  {
  }

  lemma GrantShape(s: State, key: ResourceKey, req: GrantRequest, target: CleanupTarget)
    ensures StepShape(s, Grant(s, key, req, target).state)
  {
  }

  lemma RetirementShape(s: State, handle: Handle, key: string, now: Timestamp)
    ensures StepShape(s, RequestRetirement(s, handle, key, now).state)
  {
  }

  lemma ClaimShape(s: State, id: nat, worker: HostWitness, now: Timestamp)
    requires RowsOk(s) && TasksOk(s)
    ensures StepShape(s, Claim(s, id, worker, now).state)
  {
    assert id in s.cleanups ==> TaskOk(s, id);
    assert id in s.holdings ==> RowOk(s, id);
  }

  lemma FinishShape(s: State, work: CleanupWork, outcome: CleanupOutcome, now: Timestamp)
    requires RowsOk(s) && TasksOk(s)
    ensures StepShape(s, Finish(s, work, outcome, now).state)
  {
    var id := work.task.id;
    assert id in s.cleanups ==> TaskOk(s, id);
    assert id in s.holdings ==> RowOk(s, id);
  }

  lemma AbandonShape(s: State, observed: CleanupRecord, now: Timestamp)
    ensures StepShape(s, Abandon(s, observed, now).state)
  {
  }

  lemma RunningQuietStep(s: State, t: State)
    requires RowsOk(s) && TasksOk(s) && RunningQuiet(s) && Evolves(s, t) && StepShape(s, t)
    ensures RunningQuiet(t)
  {
    forall id | id in t.cleanups && t.cleanups[id].state.Running?
      ensures !HasOccupyingChild(t.holdings, id)
    {
      if id in s.cleanups && s.cleanups[id] == t.cleanups[id] {
        assert TaskOk(s, id);
        forall c | c in t.holdings && ChildOf(t.holdings, c, id)
          ensures !Occupying(t.holdings, c)
        {
          assert c in s.holdings;
          assert RowEvolves(s.holdings[c], t.holdings[c]);
          assert ChildOf(s.holdings, c, id);
        }
      }
    }
  }

  lemma {:induction false} RunKeepsQuiet(s: State, ops: seq<Op>)
    requires Valid(s) && RunningQuiet(s)
    ensures RunningQuiet(Exec(s, ops))
    decreases |ops|
  {
    hide Apply, Evolves, StepShape, RunningQuiet, HasOccupyingChild;
    if ops != [] {
      var t := Apply(s, ops[0]).state;
      OpPreserves(s, ops[0]);
      OpShape(s, ops[0]);
      RunningQuietStep(s, t);
      RunKeepsQuiet(t, ops[1..]);
    }
  }

  // From the empty ledger the teardown-order refusal of a finish is unreachable.
  lemma FinishNeverOutOfOrder(ops: seq<Op>, work: CleanupWork, outcome: CleanupOutcome, now: Timestamp)
    ensures RunningQuiet(Exec(Empty, ops))
    ensures Finish(Exec(Empty, ops), work, outcome, now).result != Err(TeardownOrder)
  {
    ReachableValid(ops);
    EmptyValid();
    RunKeepsQuiet(Empty, ops);
    var s := Exec(Empty, ops);
    if work.task.id in s.cleanups {
      assert TaskOk(s, work.task.id);
      assert RowOk(s, work.task.id);
    }
  }

  // ----- children first -----

  lemma {:induction false} OccupyingAncestors(s: State, d: nat, top: nat, n: nat)
    requires RowsOk(s) && BelowIn(s.holdings, d, top, n) && Occupying(s.holdings, d)
    ensures Occupying(s.holdings, top)
    decreases n
  {
    if n > 0 {
      assert RowOk(s, d);
      OccupyingAncestors(s, s.holdings[d].parent.value, top, n - 1);
    }
  }

  lemma RetiredHasNoOccupyingDescendant(s: State, id: nat)
    requires RowsOk(s) && id in s.holdings && s.holdings[id].state.Retired?
    ensures forall d {:trigger Below(s.holdings, d, id)} :: Below(s.holdings, d, id) ==> !Occupying(s.holdings, d)
  {
    forall d | Below(s.holdings, d, id)
      ensures !Occupying(s.holdings, d)
    {
      var n: nat :| BelowIn(s.holdings, d, id, n);
      if Occupying(s.holdings, d) {
        OccupyingAncestors(s, d, id, n);
      }
    }
  }

  // Retirement is final, and nothing under a retired holding ever occupies again.
  lemma RetiredForever(s: State, ops: seq<Op>, id: nat)
    requires Valid(s) && id in s.holdings && s.holdings[id].state.Retired?
    ensures var t := Exec(s, ops);
            && id in t.holdings && t.holdings[id].state == s.holdings[id].state
            && forall d {:trigger Below(t.holdings, d, id)} :: Below(t.holdings, d, id) ==> !Occupying(t.holdings, d)
  {
    RunPreserves(s, ops);
    var t := Exec(s, ops);
    assert RowEvolves(s.holdings[id], t.holdings[id]);
    RetiredHasNoOccupyingDescendant(t, id);
  }

  lemma {:induction false} ChildOnTheWay(hs: Rows, d: nat, top: nat, n: nat) returns (c: nat)
    requires BelowIn(hs, d, top, n) && d != top
    ensures c in hs && ChildOf(hs, c, top) && Below(hs, d, c)
    decreases n
  {
    if hs[d].parent.value == top {
      c := d;
      assert BelowIn(hs, d, d, 0);
    } else {
      c := ChildOnTheWay(hs, hs[d].parent.value, top, n - 1);
      var m: nat :| BelowIn(hs, hs[d].parent.value, c, m);
      assert BelowIn(hs, d, c, m + 1);
    }
  }

  lemma NoOccupyingBelow(s: State, id: nat)
    requires RowsOk(s) && !HasOccupyingChild(s.holdings, id)
    ensures forall d {:trigger Below(s.holdings, d, id)} :: Below(s.holdings, d, id) && d != id ==>
              !Occupying(s.holdings, d)
  {
    forall d | Below(s.holdings, d, id) && d != id
      ensures !Occupying(s.holdings, d)
    {
      var n: nat :| BelowIn(s.holdings, d, id, n);
      var c := ChildOnTheWay(s.holdings, d, id, n);
      var m: nat :| BelowIn(s.holdings, d, c, m);
      if Occupying(s.holdings, d) {
        OccupyingAncestors(s, d, c, m);
      }
    }
  }

  // A holding retires only when none of its proper descendants occupies; only the
  // settlement of a whole pool retires descendants in the same step.
  lemma RetiresLast(s: State, op: Op, id: nat)
    requires Valid(s) && id in s.holdings && !s.holdings[id].state.Retired?
    requires Apply(s, op).state.holdings[id].state.Retired?
    ensures op.OpSettlePool? || op.OpRelease? || op.OpFinish?
    ensures !op.OpSettlePool? ==>
              forall d {:trigger Below(s.holdings, d, id)} :: Below(s.holdings, d, id) && d != id ==>
                !Occupying(s.holdings, d)
    ensures var t := Apply(s, op).state;
            forall d {:trigger Below(t.holdings, d, id)} :: Below(t.holdings, d, id) ==> !Occupying(t.holdings, d)
  {
    OpPreserves(s, op);
    RetiredHasNoOccupyingDescendant(Apply(s, op).state, id);
    RetiringOp(s, op, id);
    if !op.OpSettlePool? {
      NoOccupyingBelow(s, id);
    }
  }

  lemma RetiringOp(s: State, op: Op, id: nat)
    requires RowsOk(s) && TasksOk(s) && id in s.holdings && !s.holdings[id].state.Retired?
    requires id in Apply(s, op).state.holdings && Apply(s, op).state.holdings[id].state.Retired?
    requires IdsBelow(s.holdings, s.nextId)
    ensures op.OpSettlePool? || op.OpRelease? || op.OpFinish?
    ensures !op.OpSettlePool? ==> !HasOccupyingChild(s.holdings, id)
  {
    if op.OpFinish? && op.work.task.id in s.cleanups {
      assert TaskOk(s, op.work.task.id);
    }
    assert RowOk(s, id);
  }
}
