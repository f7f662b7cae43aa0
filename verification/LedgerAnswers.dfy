// What the other ledger operations answer: transfers, releases, retirements, the cleanup protocol
// and pools.

module LedgerAnswers {
  import opened Prelude
  import opened Algebra
  import opened Auth
  import opened LedgerTypes
  import opened LedgerState
  import opened LedgerOps
  import opened LedgerInvariant
  import opened PoolRoom
  import opened LedgerFacts
  import opened LedgerMeaning
  import Ret = Retirement
  import Runs = LedgerRuns

  // The handle is for this row and its present generation.
  predicate Names(s: State, handle: Handle) {
    handle.id in s.holdings && s.holdings[handle.id].generation == handle.generation
  }

  ghost predicate NoOccupyingChild(s: State, id: nat) {
    forall c :: c in s.holdings && s.holdings[c].parent == Some(id) ==> s.holdings[c].state.Retired?
  }

  // ----- transfers -----

  // Only the owner of an active row can pass it on; then the row changes hands and nothing else.
  lemma TransferExact(s: State, handle: Handle, owner: Name, to: Name)
    ensures var step := Transfer(s, handle, owner, to);
            && (step.result.Ok? <==>
                  Names(s, handle) && s.holdings[handle.id].state == Active &&
                  s.holdings[handle.id].subject == owner)
            && (step.result.Ok? ==>
                  step.state == s.(holdings := s.holdings[handle.id := s.holdings[handle.id].(subject := to)]))
            && (step.result.Err? ==>
                  && step.state == s
                  && step.result.error ==
                       if handle.id in s.holdings && s.holdings[handle.id].generation != handle.generation
                       then StaleGeneration else ForgedHandle)
  {
  }

  // Handing a row on and back restores the ledger, and the one who gave it away has lost it.
  lemma TransferBack(s: State, handle: Handle, owner: Name, to: Name)
    requires Transfer(s, handle, owner, to).result.Ok? && to != owner
    ensures var t := Transfer(s, handle, owner, to).state;
            && Transfer(t, handle, to, owner) == Step(s, Ok(()))
            && forall anyone :: Transfer(t, handle, owner, anyone) == Step(t, Err(ForgedHandle))
  {
    var h := s.holdings[handle.id];
    assert s.holdings[handle.id := h.(subject := to)][handle.id := h.(subject := to).(subject := owner)] == s.holdings;
  }

  // ----- releases -----

  // An active accounting row without occupying children is released and its claim freed; nothing
  // else moves. A retired row answers by its class.
  lemma ReleaseExact(s: State, handle: Handle, now: Timestamp)
    requires Valid(s)
    ensures var step := Release(s, handle, now);
            if !Names(s, handle) then
              step == Step(s, Err(if handle.id in s.holdings then StaleGeneration else ForgedHandle))
            else
              var h := s.holdings[handle.id];
              if h.state.Retired? then
                var decl := s.classes[ClassOf(s, handle.id)];
                step == Step(s, if decl.releaseIdempotent then Ok(()) else Err(DoubleRelease))
              else if h.state != Active || !h.target.AccountingOnly? then step == Step(s, Err(CleanupRequired))
              else if !NoOccupyingChild(s, handle.id) then step == Step(s, Err(TeardownOrder))
              else step == Step(s.(holdings := s.holdings[handle.id := h.(state := Retired(now))]), Ok(()))
  {
    if handle.id in s.holdings {
      var h := s.holdings[handle.id];
      RowsAndRetirements(s, handle.id);
      SuitsExact(AccountingPolicy, h.target);
      ChildrenExact(s, handle.id);
    }
  }

  lemma ChildrenExact(s: State, id: nat)
    ensures HasOccupyingChild(s.holdings, id) <==> !NoOccupyingChild(s, id)
  {
    if !NoOccupyingChild(s, id) {
      var c :| c in s.holdings && s.holdings[c].parent == Some(id) && !s.holdings[c].state.Retired?;
      assert ChildOf(s.holdings, c, id);
    }
  }

  ghost function ClassOf(s: State, id: nat): (c: Name)
    requires Valid(s) && id in s.holdings
    ensures c in s.classes && c == s.holdings[id].classId
  {
    RowsAndRetirements(s, id);
    s.holdings[id].classId
  }

  // However much later, a second release of a released row changes nothing and is an error exactly
  // when its class does not declare releases idempotent.
  lemma SecondRelease(s: State, handle: Handle, now: Timestamp, between: seq<Op>, later: Timestamp)
    requires Valid(s) && Names(s, handle) && s.holdings[handle.id].state.Active?
    requires Release(s, handle, now).result.Ok?
    ensures var t := Runs.Exec(Release(s, handle, now).state, between);
            var decl := s.classes[ClassOf(s, handle.id)];
            Release(t, handle, later) == Step(t, if decl.releaseIdempotent then Ok(()) else Err(DoubleRelease))
  {
    hide Valid, Release;
    var mid := Release(s, handle, now).state;
    ReleaseExact(s, handle, now);
    ReleasePreserves(s, handle, now);
    Runs.RunPreserves(mid, between);
    var t := Runs.Exec(mid, between);
    assert RowEvolves(mid.holdings[handle.id], t.holdings[handle.id]);
    RowsAndRetirements(s, handle.id);
    RowsAndRetirements(t, handle.id);
    ReleaseExact(t, handle, later);
  }

  // ----- retirement requests -----

  function DigitValue(c: char): int {
    c as int - '0' as int
  }

  function Read(text: string): int {
    if text == "" then 0 else 10 * Read(text[..|text| - 1]) + DigitValue(text[|text| - 1])
  }

  // The numeral in a derived key reads back as the id.
  lemma {:induction false} DecimalReads(n: nat)
    ensures Decimal(n) != "" && Read(Decimal(n)) == n
    ensures forall i :: 0 <= i < |Decimal(n)| ==> '0' <= Decimal(n)[i] <= '9'
  {
    var text := Decimal(n);
    assert DigitValue(Digit(n % 10)) == n % 10 && '0' <= Digit(n % 10) <= '9';
    if n >= 10 {
      DecimalReads(n / 10);
      assert text[..|text| - 1] == Decimal(n / 10);
    } else {
      assert text[..|text| - 1] == "";
    }
  }

  // Retiring a row takes along exactly its active parent-bound descendants; each starts a task of
  // its own id that nobody has tried, the root's under the given key and the others' under keys
  // derived from it. One taken key refuses the whole request.
  lemma RequestExact(s: State, handle: Handle, key: string, now: Timestamp)
    requires Valid(s) && Names(s, handle) && s.holdings[handle.id].state.Active?
    ensures var step := RequestRetirement(s, handle, key, now);
            var ids := BoundClosure(s.holdings, handle.id);
            if exists id, t :: id in ids && t in s.cleanups && s.cleanups[t].key == DerivedKey(key, handle.id, id)
            then step == Step(s, Err(InvalidCleanup))
            else
              && step.result == Ok(Retiring(handle.id))
              && step.state == s.(holdings := step.state.holdings, cleanups := step.state.cleanups)
              && step.state.holdings.Keys == s.holdings.Keys
              && step.state.cleanups.Keys == s.cleanups.Keys + ids
              && (forall id :: id in s.holdings ==>
                    step.state.holdings[id] ==
                      if id in ids then s.holdings[id].(state := Retiring(id)) else s.holdings[id])
              && (forall id :: id in s.cleanups && id !in ids ==> step.state.cleanups[id] == s.cleanups[id])
              && (forall id :: id in ids ==>
                    && id in s.holdings
                    && step.state.cleanups[id] ==
                         CleanupRecord(id, DerivedKey(key, handle.id, id), Handle(id, s.holdings[id].generation),
                           Pending, 0, now, now))
  {
    var ids := BoundClosure(s.holdings, handle.id);
    Ret.ClosureActive(s.holdings, handle.id);
    forall id | id in ids
      ensures KeyFor(key, handle.id, id) == DerivedKey(key, handle.id, id)
      ensures s.holdings[id].id == id && !s.holdings[id].target.Unresolved?
    {
      RowsAndRetirements(s, id);
    }
    if exists id :: id in ids && KeyTaken(s, KeyFor(key, handle.id, id)) {
      var id :| id in ids && KeyTaken(s, KeyFor(key, handle.id, id));
      var t :| t in s.cleanups && s.cleanups[t].key == KeyFor(key, handle.id, id);
    }
  }

  function DerivedKey(key: string, root: nat, id: nat): string {
    if id == root then key else key + ":bound:" + Decimal(id)
  }

  // ----- the cleanup protocol -----

  // A claim hands out exactly an open task nobody runs, of a row without occupying children; the
  // attempt is counted and signed, and nothing else changes.
  lemma ClaimExact(s: State, id: nat, worker: HostWitness, now: Timestamp)
    requires Valid(s)
    ensures var step := Claim(s, id, worker, now);
            if id !in s.cleanups then step == Step(s, Err(InvalidCleanup))
            else
              var task := s.cleanups[id];
              if task.state.Running? || task.state.Done? || !NoOccupyingChild(s, id) then step == Step(s, Ok(None))
              else if task.attempts == I64_MAX then step == Step(s, Err(OutOfRange))
              else
                && step.result.Ok? && step.result.value.Some?
                && var work := step.result.value.value;
                   && work.task == CleanupRecord(id, task.key, task.holding, Running(worker), task.attempts + 1,
                                     task.requestedAt, now)
                   && step.state == s.(cleanups := s.cleanups[id := work.task])
                   && id in s.holdings && work.target == s.holdings[id].target
                   && work.resource == ResourceKey(s.holdings[id].classId, s.holdings[id].instance)
                   && work.resource.classId in s.classes && work.grade == s.classes[work.resource.classId].revertGrade
  {
    if id in s.cleanups {
      assert TaskOk(s, id);
      RowsAndRetirements(s, id);
      ChildrenExact(s, id);
    }
  }

  // What each of the five outcomes leaves in the task.
  predicate Leaves(outcome: CleanupOutcome, state: CleanupState) {
    match outcome
    case OutcomeConfirmed => state == Done(Confirmed)
    case OutcomeAbsent => state == Done(AlreadyAbsent)
    case OutcomeRetryable(why) => state == Retryable(why)
    case OutcomeUnknown(why) => state == Unknown(why)
    case OutcomeBlocked(why) => state == Blocked(why)
  }

  // The effect of an accepted outcome: its record, and a retired row exactly when the world
  // confirmed that the resource is gone.
  ghost predicate FinishedAs(s: State, t: State, id: nat, outcome: CleanupOutcome, now: Timestamp) {
    && id in s.holdings && id in t.holdings && id in s.cleanups && id in t.cleanups
    && s.holdings[id].state == Retiring(id)
    && (t.holdings[id].state.Retired? <==> outcome.OutcomeConfirmed? || outcome.OutcomeAbsent?)
    && (t.holdings[id] == s.holdings[id] || t.holdings[id] == s.holdings[id].(state := Retired(now)))
    && Leaves(outcome, t.cleanups[id].state)
    && t.cleanups[id] == s.cleanups[id].(state := t.cleanups[id].state, updatedAt := now)
    && t == s.(holdings := s.holdings[id := t.holdings[id]], cleanups := s.cleanups[id := t.cleanups[id]])
  }

  // An attempt may be finished exactly while its record is the one handed out, still running on
  // the same target, and nothing below occupies.
  lemma FinishExact(s: State, work: CleanupWork, outcome: CleanupOutcome, now: Timestamp)
    requires Valid(s)
    ensures var step := Finish(s, work, outcome, now);
            var id := work.task.id;
            if id !in s.cleanups || s.cleanups[id] != work.task || !work.task.state.Running? ||
               id !in s.holdings || s.holdings[id].target != work.target
            then step == Step(s, Err(StaleAttempt))
            else if !NoOccupyingChild(s, id) then step == Step(s, Err(TeardownOrder))
            else step.result == Ok(()) && FinishedAs(s, step.state, id, outcome, now)
  {
    var id := work.task.id;
    if id in s.cleanups {
      assert TaskOk(s, id);
      RowsAndRetirements(s, id);
      ChildrenExact(s, id);
      var step := Finish(s, work, outcome, now);
      if step.result.Ok? {
        assert s.holdings[id := s.holdings[id]] == s.holdings;
      }
    }
  }

  // A finish frees the claim of its row exactly when the outcome says the resource is gone; no
  // other claim of any pool moves.
  lemma FinishFrees(s: State, work: CleanupWork, outcome: CleanupOutcome, now: Timestamp, key: ResourceKey, id: nat)
    requires Valid(s) && Finish(s, work, outcome, now).result.Ok?
    ensures var t := Finish(s, work, outcome, now).state;
            InPool(t.holdings, key, id) <==>
              InPool(s.holdings, key, id) &&
              !(id == work.task.id && (outcome.OutcomeConfirmed? || outcome.OutcomeAbsent?))
  {
    hide Valid, Finish;
    FinishExact(s, work, outcome, now);
  }

  // An abandoned attempt is exactly one still on record as running; it becomes retryable with the
  // reason that its worker was interrupted.
  lemma AbandonExact(s: State, observed: CleanupRecord, now: Timestamp)
    ensures var step := Abandon(s, observed, now);
            var id := observed.id;
            if id in s.cleanups && s.cleanups[id] == observed && observed.state.Running? then
              && step.result == Ok(()) && id in step.state.cleanups
              && step.state.cleanups[id] ==
                   CleanupRecord(observed.id, observed.key, observed.holding,
                     Unknown("worker interrupted before durable confirmation"), observed.attempts,
                     observed.requestedAt, now)
              && step.state == s.(cleanups := s.cleanups[id := step.state.cleanups[id]])
            else step == Step(s, Err(StaleAttempt))
  {
  }

  // ----- classes and pools -----

  // A class is registered when it may be, and an accepted class is never redefined.
  lemma RegisterExact(s: State, decl: ClassDecl)
    ensures var step := RegisterClass(s, decl);
            if !MayRegister(decl) then step == Step(s, Err(InvalidCleanup))
            else if decl.classId in s.classes && s.classes[decl.classId] != decl
            then step == Step(s, Err(ClassConflict))
            else step == Step(s.(classes := s.classes[decl.classId := decl]), Ok(()))
  {
    if decl.classId in s.classes {
      assert s.classes[decl.classId] == decl ==> s.classes[decl.classId := decl] == s.classes;
    }
  }

  lemma CreateExact(s: State, key: ResourceKey, capacity: ValidFrag)
    ensures var step := CreatePool(s, key, capacity);
            if key.classId !in s.classes then step == Step(s, Err(UnknownClass))
            else if s.classes[key.classId].algebra != capacity.Tag() then step == Step(s, Err(AlgebraMismatch))
            else if key in s.pools && s.pools[key] != capacity then step == Step(s, Err(PoolExists))
            else step == Step(s.(pools := s.pools[key := capacity]), Ok(()))
  {
    if key in s.pools {
      assert s.pools[key] == capacity ==> s.pools[key := capacity] == s.pools;
    }
  }

  // A pool can be resized to exactly what still has room for its claims.
  lemma ResizeExact(s: State, key: ResourceKey, capacity: ValidFrag)
    requires Valid(s)
    ensures var step := ResizePool(s, key, capacity);
            if key !in s.pools then step == Step(s, Err(UnknownPool))
            else if s.pools[key].Tag() != capacity.Tag() then step == Step(s, Err(AlgebraMismatch))
            else if exists ids ::
                      ListsClaims(s.holdings, key, s.nextId, ids) && !Room(capacity, ClaimsOf(s.holdings, ids))
            then step == Step(s, Err(Conflict))
            else step == Step(s.(pools := s.pools[key := capacity]), Ok(()))
  {
    hide Room, AuthValid, ListsClaims;
    if key in s.pools && s.pools[key].Tag() == capacity.Tag() {
      assert PoolOk(s, key);
      var live := LiveExact(s.holdings, key, s.nextId);
      FitsExact(capacity, LiveFrags(s, key));
      forall ids | ListsClaims(s.holdings, key, s.nextId, ids)
        ensures ids == live
      {
        ListUnique(s.holdings, key, s.nextId, ids, live);
      }
    }
  }

  // A counted pool settles exactly when every claim on it is an active accounting row whose
  // occupying children are claims on it too; then all of them retire, and the pool is worth nothing.
  lemma SettleExact(s: State, key: ResourceKey, now: Timestamp)
    ensures var step := SettlePool(s, key, now);
            if key !in s.pools then step == Step(s, Err(UnknownPool))
            else if s.pools[key].Tag() != Counted then step == Step(s, Err(AlgebraMismatch))
            else if exists id :: InPool(s.holdings, key, id) &&
                                 (s.holdings[id].state != Active || !s.holdings[id].target.AccountingOnly?)
            then step == Step(s, Err(CleanupRequired))
            else if exists id, c :: InPool(s.holdings, key, id) && ChildOf(s.holdings, c, id) &&
                                    !s.holdings[c].state.Retired? && !InPool(s.holdings, key, c)
            then step == Step(s, Err(TeardownOrder))
            else
              && step.result == Ok(())
              && step.state == s.(holdings := step.state.holdings, pools := s.pools[key := CountFrag(Value(0))])
              && step.state.holdings.Keys == s.holdings.Keys
              && forall id :: id in s.holdings ==>
                   step.state.holdings[id] ==
                     if InPool(s.holdings, key, id) then s.holdings[id].(state := Retired(now)) else s.holdings[id]
  {
    assert forall id :: id in s.holdings ==> (Charges(s.holdings[id], key) <==> InPool(s.holdings, key, id));
  }
}
