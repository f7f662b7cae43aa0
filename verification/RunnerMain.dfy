// The runner's passes: claim, act, finish, until a pass completes nothing.

module RunnerMain {
  import opened Prelude
  import opened LedgerTypes
  import opened LedgerState
  import opened LedgerOps
  import opened LedgerInvariant
  import opened LedgerRows
  import opened LedgerObject
  import opened RunnerSpec
  import opened Runner
  import opened CleanupAnswers
  import Cleanup = LedgerCleanup

  datatype CleanupReport = CleanupReport(completed: seq<Handle>, pending: seq<CleanupRecord>)

  // Holdings of the discharging attempts, in execution order.
  function Completed(log: seq<Attempt>): seq<Handle> {
    if log == [] then []
    else
      var rest, a := Completed(log[..|log| - 1]), log[|log| - 1];
      if a.outcome.Discharges() then rest + [a.work.task.holding] else rest
  }

  predicate Open(t: CleanupRecord, scope: Option<set<nat>>) {
    !t.state.Done? && (scope.None? || t.holding.id in scope.value)
  }

  function OpenTasks(tasks: seq<CleanupRecord>, scope: Option<set<nat>>): seq<CleanupRecord> {
    if tasks == [] then []
    else
      var rest, t := OpenTasks(tasks[..|tasks| - 1], scope), tasks[|tasks| - 1];
      if Open(t, scope) then rest + [t] else rest
  }

  // Why a task the call was allowed to discharge is still open: an attempt of this call
  // failed, another worker is running it, or a child still occupies.
  predicate Stuck(s: State, log: seq<Attempt>, t: State, id: nat)
    requires id in t.cleanups
  {
    || Failed(log, id)
    || (t.cleanups[id].state.Running? && id in s.cleanups && t.cleanups[id] == s.cleanups[id])
    || HasOccupyingChild(t.holdings, id)
  }

  ghost predicate MaximalProgress(s: State, log: seq<Attempt>, t: State, scope: Option<set<nat>>) {
    forall id {:trigger t.cleanups[id]} ::
      id in t.cleanups && !t.cleanups[id].state.Done? && Allowed(t.holdings, scope, id) ==>
      Stuck(s, log, t, id)
  }

  ghost predicate WithinScope(s: State, log: seq<Attempt>, scope: Option<set<nat>>) {
    forall a {:trigger a in log} :: a in log ==> Allowed(s.holdings, scope, a.work.task.id)
  }

  predicate AtLimit(s: State, id: nat) {
    id in s.cleanups && s.cleanups[id].attempts == I64_MAX
  }

  // Everything known between two attempts of one call.
  ghost predicate Ongoing(s: State, log: seq<Attempt>, t: State, scope: Option<set<nat>>, c: Call) {
    && Valid(s)
    && LogOk(s, log, c) && t == After(s, log, c)
    && RanTo(s, log, t, c)
    && WithinScope(s, log, scope)
  }

  lemma CallStarts(s: State, scope: Option<set<nat>>, c: Call)
    requires Valid(s)
    ensures Ongoing(s, [], s, scope, c)
  {
    NothingRan(s, c);
  }

  // ----- one attempt -----

  lemma ClaimAnswers(s: State, id: nat, c: Call)
    requires Valid(s) && id in s.cleanups
    ensures var step := Claim(s, id, c.worker, c.now);
            && (step.result.Err? ==> step.result.error == OutOfRange && AtLimit(s, id))
            && (step.result == Ok(None) ==>
                 s.cleanups[id].state.Running? || s.cleanups[id].state.Done? || HasOccupyingChild(s.holdings, id))
            && (step.result.Ok? && step.result.value.Some? ==> step.result.value.value.task.id == id)
            && (step.result.Err? || step.result == Ok(None) ==> step.state == s)
  {
    hide HasOccupyingChild;
    ValidRows(s);
    assert TaskOk(s, id);
    assert RowOk(s, id);
  }

  lemma AllowedShrinks(s: State, log: seq<Attempt>, t: State, scope: Option<set<nat>>, c: Call, id: nat)
    requires RanTo(s, log, t, c) && Allowed(t.holdings, scope, id)
    ensures Allowed(s.holdings, scope, id)
  {
    if scope.Some? && id !in scope.value {
      var d :| d in scope.value && Below(t.holdings, d, id);
      forall k | k in t.holdings
        ensures k in s.holdings && s.holdings[k].parent == t.holdings[k].parent
      {
        assert t.holdings[k] == t.holdings[k];
      }
      BelowSame(t.holdings, s.holdings, d, id);
      assert s.holdings[id].state.Retiring?;
    }
  }

  lemma AttemptGoesOn(s: State, log: seq<Attempt>, t: State, scope: Option<set<nat>>, c: Call, a: Attempt)
    requires Ongoing(s, log, t, scope, c) && Executes(t, a, c) && a.work.task.id !in LogIds(log)
    requires Allowed(s.holdings, scope, a.work.task.id)
    ensures Ongoing(s, log + [a], Attempted(t, a, c), scope, c)
    ensures |LogIds(log + [a])| == |LogIds(log)| + 1
  {
    hide RanTo, Executes, Attempted, Allowed;
    var all := log + [a];
    assert all[..|all| - 1] == log;
    OneMoreAttempt(s, log, t, c, a);
    LogGrows(log, a);
  }

  datatype Tried = Refused(why: LedgerError) | Waiting | Acted(attempt: Attempt)

  // Claim; with a claim in hand act on the world, then record the outcome.
  method TryTask(l: Ledger, id: nat, c: Call) returns (r: Tried)
    requires l.Valid() && id in l.cleanups
    modifies l
    ensures l.Valid() && l.identity == old(l.identity)
    ensures var t := old(l.View());
            match r
            case Refused(why) => l.View() == t && why == OutOfRange && AtLimit(t, id)
            case Waiting => l.View() == t &&
              (t.cleanups[id].state.Running? || t.cleanups[id].state.Done? || HasOccupyingChild(t.holdings, id))
            case Acted(a) =>
              && a.work.task.id == id && Executes(t, a, c) && l.View() == Attempted(t, a, c)
              && AttemptAnswered(t, l.View(), a, c)
  {
    hide LedgerState.Valid, UniqueIds, Claim, Finish, HasOccupyingChild, Evolves, AtLimit, AttemptAnswered;
    ghost var t := l.View();
    ClaimAnswers(t, id, c);
    var claimed := Cleanup.ClaimCleanup(l, id, c.worker, c.now);
    if claimed.Err? {
      return Refused(claimed.error);
    }
    if claimed.value.None? {
      return Waiting;
    }
    var work := claimed.value.value;
    var outcome;
    match work.target {
      case AccountingOnly => outcome := OutcomeConfirmed;
      case Unresolved(_, reason) => outcome := OutcomeBlocked(reason);
      case _ => outcome := c.world(work);
    }
    AttemptEffect(t, Attempt(work, outcome), c);
    var finished := Cleanup.FinishCleanup(l, work, outcome, c.now);
    assert finished.Ok?;
    ExecutesAnswered(t, Attempt(work, outcome), c);
    return Acted(Attempt(work, outcome));
  }

  // ----- one pass -----

  // In a pass that has completed nothing, the rows are as at its start.
  ghost predicate Quiet(s: State, log: seq<Attempt>, start: State, t: State, tasks: seq<CleanupRecord>,
                        scope: Option<set<nat>>, i: nat) {
    && i <= |tasks|
    && t.holdings == start.holdings
    && forall j {:trigger tasks[j]} ::
         0 <= j < i && !tasks[j].state.Done? && Allowed(start.holdings, scope, tasks[j].id) ==>
         Settled(s, log, t, tasks[j].id)
  }

  predicate Settled(s: State, log: seq<Attempt>, t: State, id: nat) {
    && id in t.cleanups
    && (id in LogIds(log) || Stuck(s, log, t, id))
  }

  lemma QuietKeeps(s: State, log: seq<Attempt>, start: State, t: State, tasks: seq<CleanupRecord>,
                   scope: Option<set<nat>>, i: nat, c: Call, a: Attempt)
    requires Quiet(s, log, start, t, tasks, scope, i) && i < |tasks| && tasks[i].id == a.work.task.id
    requires Valid(t) && Executes(t, a, c) && !a.outcome.Discharges()
    ensures Quiet(s, log + [a], start, Attempted(t, a, c), tasks, scope, i + 1)
  {
    hide Executes, Attempted, Allowed, Valid, HasOccupyingChild, Failed, Evolves, Claim, Finish;
    AttemptEffect(t, a, c);
    LogGrows(log, a);
    var u := Attempted(t, a, c);
    forall j | 0 <= j < i + 1 && !tasks[j].state.Done? && Allowed(start.holdings, scope, tasks[j].id)
      ensures Settled(s, log + [a], u, tasks[j].id)
    {
      if j < i {
        assert Settled(s, log, t, tasks[j].id);
      }
    }
  }

  lemma QuietSkips(s: State, log: seq<Attempt>, start: State, t: State, tasks: seq<CleanupRecord>,
                   scope: Option<set<nat>>, i: nat)
    requires Quiet(s, log, start, t, tasks, scope, i) && i < |tasks|
    requires tasks[i].state.Done? || !Allowed(start.holdings, scope, tasks[i].id) || Settled(s, log, t, tasks[i].id)
    ensures Quiet(s, log, start, t, tasks, scope, i + 1)
  {
  }

  lemma Unclaimed(s: State, log: seq<Attempt>, t: State, scope: Option<set<nat>>, c: Call, task: CleanupRecord)
    requires Ongoing(s, log, t, scope, c) && task.id !in LogIds(log)
    requires task.id in s.cleanups && s.cleanups[task.id] == task && !task.state.Done?
    requires t.cleanups[task.id].state.Running? || t.cleanups[task.id].state.Done? ||
               HasOccupyingChild(t.holdings, task.id)
    ensures Settled(s, log, t, task.id)
  {
    assert t.cleanups[task.id] == s.cleanups[task.id];
  }

  lemma SettledStuck(s: State, log: seq<Attempt>, t: State, c: Call, id: nat)
    requires RanTo(s, log, t, c) && Settled(s, log, t, id) && !t.cleanups[id].state.Done?
    ensures Stuck(s, log, t, id)
  {
    LoggedIds(log);
  }

  lemma PassDone(s: State, log: seq<Attempt>, start: State, t: State, scope: Option<set<nat>>, c: Call)
    requires Ongoing(s, log, t, scope, c)
    requires Valid(start) && start.nextId == s.nextId && start.cleanups.Keys == s.cleanups.Keys
    requires forall id {:trigger start.cleanups[id]} :: id in start.cleanups && start.cleanups[id].state.Done? ==>
               id in t.cleanups && t.cleanups[id].state.Done?
    requires var tasks := TaskList(start.cleanups, start.nextId); Quiet(s, log, start, t, tasks, scope, |tasks|)
    ensures MaximalProgress(s, log, t, scope)
  {
    hide Valid, Evolves, Allowed, Stuck, TaskRan, RowRan, LogOk, WithinScope, HasOccupyingChild;
    var tasks := TaskList(start.cleanups, start.nextId);
    TasksBelowNext(start);
    TaskListExact(start, start.nextId);
    forall id | id in t.cleanups && !t.cleanups[id].state.Done? && Allowed(t.holdings, scope, id)
      ensures Stuck(s, log, t, id)
    {
      assert id in start.cleanups;
      assert !start.cleanups[id].state.Done?;
      assert ListsTask(tasks, id);
      var k :| 0 <= k < |tasks| && tasks[k].id == id;
      assert tasks[k] == start.cleanups[id];
      assert Settled(s, log, t, id);
      SettledStuck(s, log, t, c, id);
    }
  }

  // A listed task not attempted yet is still as it was when the call began.
  lemma Untouched(s: State, start: State, log0: seq<Attempt>, log: seq<Attempt>, t: State, scope: Option<set<nat>>,
                  c: Call, task: CleanupRecord)
    requires RanTo(s, log0, start, c) && Ongoing(s, log, t, scope, c) && LogIds(log0) <= LogIds(log)
    requires task.id in start.cleanups && start.cleanups[task.id] == task && task.id !in LogIds(log)
    ensures task.id in s.cleanups && s.cleanups[task.id] == task
    ensures task.id in t.cleanups && t.cleanups[task.id] == task
  {
  }

  ghost predicate DoneKept(start: State, t: State) {
    forall id {:trigger start.cleanups[id]} :: id in start.cleanups && start.cleanups[id].state.Done? ==>
      id in t.cleanups && t.cleanups[id].state.Done?
  }

  lemma DoneKeeps(start: State, t: State, a: Attempt, c: Call)
    requires DoneKept(start, t) && Valid(t) && Executes(t, a, c)
    ensures DoneKept(start, Attempted(t, a, c))
  {
    hide Valid, Executes, Attempted;
    AttemptEffect(t, a, c);
  }

  lemma PassStart(s: State, log: seq<Attempt>, start: State, scope: Option<set<nat>>, c: Call)
    requires Ongoing(s, log, start, scope, c)
    ensures RanTo(s, log, start, c) && Valid(start) && DoneKept(start, start)
    ensures Quiet(s, log, start, start, TaskList(start.cleanups, start.nextId), scope, 0)
  {
  }

  lemma AllowedBy(hs: Rows, scope: Option<set<nat>>, permitted: set<nat>)
    requires scope.Some? ==> forall x :: x in permitted <==> IsPermitted(hs, scope.value, x)
    ensures forall x :: Allowed(hs, scope, x) <==> scope.None? || x in permitted
  {
  }

  lemma ListedTask(s: State, i: nat)
    requires Valid(s) && i < |TaskList(s.cleanups, s.nextId)|
    ensures var t := TaskList(s.cleanups, s.nextId)[i];
              t.id in s.cleanups && s.cleanups[t.id] == t && t.holding.id == t.id
  {
    ValidRows(s);
    TaskListExact(s, s.nextId);
  }

  lemma OngoingValid(s: State, log: seq<Attempt>, t: State, scope: Option<set<nat>>, c: Call)
    requires Ongoing(s, log, t, scope, c)
    ensures Valid(t)
  {
  }

  lemma AlreadyTried(s: State, log: seq<Attempt>, t: State, scope: Option<set<nat>>, c: Call, id: nat)
    requires Ongoing(s, log, t, scope, c)
    ensures id in LogIds(log) ==> Settled(s, log, t, id)
  {
  }

  lemma PassFinished(s: State, log0: seq<Attempt>, log: seq<Attempt>, start: State, t: State, scope: Option<set<nat>>,
                     c: Call)
    requires Ongoing(s, log, t, scope, c) && RanTo(s, log0, start, c) && DoneKept(start, t)
    requires var tasks := TaskList(start.cleanups, start.nextId); Quiet(s, log, start, t, tasks, scope, |tasks|)
    ensures MaximalProgress(s, log, t, scope)
  {
    hide Quiet, Ongoing, Valid, Evolves;
    PassDone(s, log, start, t, scope, c);
  }

  lemma CompletedGrows(log: seq<Attempt>, a: Attempt)
    ensures Completed(log + [a]) == Completed(log) + (if a.outcome.Discharges() then [a.work.task.holding] else [])
  {
    assert (log + [a])[..|log|] == log;
  }

  // Everything known inside a pass, before its entry `i`.
  ghost predicate InPass(s: State, log0: seq<Attempt>, start: State, log: seq<Attempt>, t: State,
                         scope: Option<set<nat>>, c: Call, progress: bool, i: nat) {
    && Ongoing(s, log, t, scope, c) && RanTo(s, log0, start, c) && Valid(start)
    && DoneKept(start, t)
    && LogIds(log0) <= LogIds(log) && |LogIds(log0)| <= |LogIds(log)|
    && (progress ==> |LogIds(log0)| < |LogIds(log)|)
    && (!progress ==> Quiet(s, log, start, t, TaskList(start.cleanups, start.nextId), scope, i))
  }

  lemma PassBegins(s: State, log: seq<Attempt>, start: State, scope: Option<set<nat>>, c: Call)
    requires Ongoing(s, log, start, scope, c)
    ensures InPass(s, log, start, log, start, scope, c, false, 0)
  {
    hide Quiet, Valid;
    PassStart(s, log, start, scope, c);
  }

  lemma PassActs(s: State, log0: seq<Attempt>, start: State, log: seq<Attempt>, t: State,
                 scope: Option<set<nat>>, c: Call, progress: bool, i: nat, a: Attempt)
    requires InPass(s, log0, start, log, t, scope, c, progress, i)
    requires i < |TaskList(start.cleanups, start.nextId)| &&
               TaskList(start.cleanups, start.nextId)[i].id == a.work.task.id
    requires Executes(t, a, c) && a.work.task.id !in LogIds(log) && Allowed(start.holdings, scope, a.work.task.id)
    ensures InPass(s, log0, start, log + [a], Attempted(t, a, c), scope, c, progress || a.outcome.Discharges(), i + 1)
  {
    hide Quiet, Valid, Ongoing, RanTo, Executes, Attempted, DoneKept, Allowed;
    OngoingValid(s, log, t, scope, c);
    DoneKeeps(start, t, a, c);
    AllowedShrinks(s, log0, start, scope, c, a.work.task.id);
    AttemptGoesOn(s, log, t, scope, c, a);
    LogGrows(log, a);
    if !progress && !a.outcome.Discharges() {
      QuietKeeps(s, log, start, t, TaskList(start.cleanups, start.nextId), scope, i, c, a);
    }
  }

  lemma PassWaits(s: State, log0: seq<Attempt>, start: State, log: seq<Attempt>, t: State,
                  scope: Option<set<nat>>, c: Call, progress: bool, i: nat)
    requires InPass(s, log0, start, log, t, scope, c, progress, i)
    requires i < |TaskList(start.cleanups, start.nextId)|
    requires var task := TaskList(start.cleanups, start.nextId)[i];
             || task.state.Done? || !Allowed(start.holdings, scope, task.id) || task.id in LogIds(log)
             || (task.id in t.cleanups &&
                  (t.cleanups[task.id].state.Running? || t.cleanups[task.id].state.Done? ||
                    HasOccupyingChild(t.holdings, task.id)))
    ensures InPass(s, log0, start, log, t, scope, c, progress, i + 1)
  {
    hide Quiet, Valid, Ongoing, RanTo, DoneKept, Allowed, HasOccupyingChild, Settled;
    var tasks := TaskList(start.cleanups, start.nextId);
    ListedTask(start, i);
    AlreadyTried(s, log, t, scope, c, tasks[i].id);
    if tasks[i].id !in LogIds(log) && !tasks[i].state.Done? {
      Untouched(s, start, log0, log, t, scope, c, tasks[i]);
      if t.cleanups[tasks[i].id].state.Running? || t.cleanups[tasks[i].id].state.Done? ||
        HasOccupyingChild(t.holdings, tasks[i].id) {
        Unclaimed(s, log, t, scope, c, tasks[i]);
      }
    }
    if !progress {
      QuietSkips(s, log, start, t, tasks, scope, i);
    }
  }

  lemma PassEntry(s: State, log0: seq<Attempt>, start: State, log: seq<Attempt>, t: State,
                  scope: Option<set<nat>>, c: Call, progress: bool, i: nat)
    requires InPass(s, log0, start, log, t, scope, c, progress, i)
    requires i < |TaskList(start.cleanups, start.nextId)|
    ensures var task := TaskList(start.cleanups, start.nextId)[i];
            && task.holding.id == task.id
            && (task.id !in LogIds(log) ==>
                 task.id in t.cleanups && t.cleanups[task.id] == task && task.id in s.cleanups &&
                   s.cleanups[task.id] == task)
            && (Allowed(start.holdings, scope, task.id) ==> Allowed(s.holdings, scope, task.id))
  {
    hide Quiet, Valid, Ongoing, RanTo, DoneKept, Allowed;
    ListedTask(start, i);
    var task := TaskList(start.cleanups, start.nextId)[i];
    if task.id !in LogIds(log) {
      Untouched(s, start, log0, log, t, scope, c, task);
    }
    if Allowed(start.holdings, scope, task.id) {
      AllowedShrinks(s, log0, start, scope, c, task.id);
    }
  }

  lemma PassEnds(s: State, log0: seq<Attempt>, start: State, log: seq<Attempt>, t: State,
                 scope: Option<set<nat>>, c: Call, progress: bool)
    requires InPass(s, log0, start, log, t, scope, c, progress, |TaskList(start.cleanups, start.nextId)|)
    ensures !progress ==> MaximalProgress(s, log, t, scope)
  {
    hide Quiet, Valid, Ongoing, RanTo, DoneKept, MaximalProgress;
    if !progress {
      PassFinished(s, log0, log, start, t, scope, c);
    }
  }

  lemma PassFacts(s: State, log0: seq<Attempt>, start: State, log: seq<Attempt>, t: State,
                  scope: Option<set<nat>>, c: Call, progress: bool, i: nat)
    requires InPass(s, log0, start, log, t, scope, c, progress, i)
    ensures Ongoing(s, log, t, scope, c)
    ensures |LogIds(log0)| <= |LogIds(log)| && (progress ==> |LogIds(log0)| < |LogIds(log)|)
  {
  }

  method Pass(l: Ledger, scope: Option<set<nat>>, attempted: set<nat>, c: Call, ghost s: State,
              ghost log0: seq<Attempt>)
    returns (error: Option<LedgerError>, tried: set<nat>, completed: seq<Handle>, progress: bool,
      ghost log: seq<Attempt>)
    requires l.Valid() && Ongoing(s, log0, l.View(), scope, c) && attempted == LogIds(log0)
    modifies l
    ensures l.Valid() && l.identity == old(l.identity)
    ensures Ongoing(s, log, l.View(), scope, c) && tried == LogIds(log)
    ensures Completed(log) == Completed(log0) + completed
    ensures |tried| >= |attempted| && (progress ==> |tried| > |attempted|)
    ensures error.None? && !progress ==> MaximalProgress(s, log, l.View(), scope)
    ensures error.Some? ==> error.value == OutOfRange && exists id :: AtLimit(s, id) && Allowed(s.holdings, scope, id)
  {
    hide LedgerState.Valid, UniqueIds, Ongoing, InPass, Executes, Attempted, MaximalProgress, Allowed;
    hide HasOccupyingChild, Completed, LogIds;
    ghost var start := l.View();
    PassBegins(s, log0, start, scope, c);
    tried, completed, progress, log, error := attempted, [], false, log0, None;
    var permitted := {};
    if scope.Some? {
      permitted := Permitted(l, scope.value);
    }
    AllowedBy(start.holdings, scope, permitted);
    var tasks := CleanupTasks(l);
    for i := 0 to |tasks|
      invariant l.Valid() && l.identity == old(l.identity)
      invariant InPass(s, log0, start, log, l.View(), scope, c, progress, i)
      invariant tried == LogIds(log) && Completed(log) == Completed(log0) + completed
    {
      var task := tasks[i];
      PassEntry(s, log0, start, log, l.View(), scope, c, progress, i);
      if !task.state.Done? && (scope.None? || task.holding.id in permitted) && task.id !in tried {
        ghost var t := l.View();
        var result := TryTask(l, task.id, c);
        match result {
          case Refused(why) =>
            PassFacts(s, log0, start, log, t, scope, c, progress, i);
            assert AtLimit(s, task.id);
            error := Some(why);
            return;
          case Waiting =>
            PassWaits(s, log0, start, log, t, scope, c, progress, i);
          case Acted(a) =>
            PassActs(s, log0, start, log, t, scope, c, progress, i, a);
            CompletedGrows(log, a);
            LogGrows(log, a);
            log := log + [a];
            tried := tried + {task.id};
            if a.outcome.Discharges() {
              completed := completed + [a.work.task.holding];
              progress := true;
            }
        }
      } else {
        PassWaits(s, log0, start, log, l.View(), scope, c, progress, i);
      }
    }
    PassFacts(s, log0, start, log, l.View(), scope, c, progress, |tasks|);
    PassEnds(s, log0, start, log, l.View(), scope, c, progress);
  }

  method Pending(l: Ledger, scope: Option<set<nat>>) returns (open: seq<CleanupRecord>)
    ensures open == OpenTasks(TaskList(l.cleanups, l.nextId), scope)
  {
    open := [];
    var tasks := CleanupTasks(l);
    for k := 0 to |tasks|
      invariant open == OpenTasks(tasks[..k], scope)
    {
      assert tasks[..k + 1][..k] == tasks[..k];
      if Open(tasks[k], scope) {
        open := open + [tasks[k]];
      }
    }
    assert tasks[..|tasks|] == tasks;
  }

  lemma AttemptsBounded(s: State, log: seq<Attempt>, t: State, scope: Option<set<nat>>, c: Call)
    requires Ongoing(s, log, t, scope, c)
    ensures |LogIds(log)| <= |s.cleanups.Keys|
  {
    assert LogIds(log) <= s.cleanups.Keys;
    var rest := s.cleanups.Keys - LogIds(log);
    assert s.cleanups.Keys == LogIds(log) + rest;
    assert |s.cleanups.Keys| == |LogIds(log)| + |rest|;
  }

  lemma OngoingAnswered(s: State, log: seq<Attempt>, t: State, scope: Option<set<nat>>, c: Call)
    requires Ongoing(s, log, t, scope, c)
    ensures Answered(s, log, t, c)
  {
    hide Answered;
    CallAnswers(s, log, c);
  }

  // ----- the report -----

  predicate RetiredSince(s: State, t: State, id: nat) {
    id in s.holdings && id in t.holdings && !s.holdings[id].state.Retired? && t.holdings[id].state.Retired?
  }

  predicate RetiredHandle(s: State, t: State, h: Handle) {
    RetiredSince(s, t, h.id) && h.id in s.holdings && h == Handle(h.id, s.holdings[h.id].generation)
  }

  // Completed are exactly the rows this call retired, each once; pending exactly the open tasks in
  // scope as they are now, by id.
  ghost predicate Reports(s: State, t: State, scope: Option<set<nat>>, r: CleanupReport) {
    && (forall h {:trigger h in r.completed} ::
          h in r.completed <==> RetiredHandle(s, t, h))
    && (forall i, j :: 0 <= i < j < |r.completed| ==> r.completed[i] != r.completed[j])
    && (forall task {:trigger task in r.pending} ::
          task in r.pending <==>
            && task.id in t.cleanups && t.cleanups[task.id] == task && !task.state.Done?
            && (scope.Some? ==> task.id in scope.value))
    && (forall i, j :: 0 <= i < j < |r.pending| ==> r.pending[i].id < r.pending[j].id)
  }

  predicate Completes(log: seq<Attempt>, h: Handle) {
    exists a :: a in log && a.outcome.Discharges() && a.work.task.holding == h
  }

  lemma {:induction false} CompletedExact(log: seq<Attempt>, h: Handle)
    ensures h in Completed(log) <==> Completes(log, h)
  {
    if log != [] {
      var front, last := log[..|log| - 1], log[|log| - 1];
      assert log == front + [last];
      CompletedExact(front, h);
      assert last in log;
      if Completes(front, h) {
        var a :| a in front && a.outcome.Discharges() && a.work.task.holding == h;
        assert a in log;
      }
    }
  }

  lemma {:induction false} CompletedOnce(s: State, log: seq<Attempt>, c: Call)
    requires LogOk(s, log, c) && forall a {:trigger a in log} :: a in log ==> a.work.task.holding.id == a.work.task.id
    ensures forall i, j :: 0 <= i < j < |Completed(log)| ==> Completed(log)[i] != Completed(log)[j]
  {
    hide Executes, After;
    if log != [] {
      var front, last := log[..|log| - 1], log[|log| - 1];
      assert log == front + [last];
      assert forall a :: a in front ==> a in log;
      CompletedOnce(s, front, c);
      CompletedExact(front, last.work.task.holding);
      assert last in log;
    }
  }

  lemma AnsweredHandles(s: State, log: seq<Attempt>, t: State, c: Call)
    requires Answered(s, log, t, c)
    ensures forall a {:trigger a in log} :: a in log ==>
              && a.work.task.holding.id == a.work.task.id
              && (a.outcome.Discharges() <==> RetiredSince(s, t, a.work.task.id))
              && a.work.task.id in s.holdings
              && a.work.task.holding == Handle(a.work.task.id, s.holdings[a.work.task.id].generation)
    ensures forall id :: RetiredSince(s, t, id) ==> ActedOn(log, id)
  {
    forall a | a in log
      ensures a.work.task.holding.id == a.work.task.id
      ensures a.outcome.Discharges() <==> RetiredSince(s, t, a.work.task.id)
    {
      assert AttemptAnswered(s, t, a, c);
    }
  }

  lemma {:induction false} OpenTasksExact(tasks: seq<CleanupRecord>, scope: Option<set<nat>>, task: CleanupRecord)
    ensures task in OpenTasks(tasks, scope) <==> task in tasks && Open(task, scope)
  {
    if tasks != [] {
      assert tasks == tasks[..|tasks| - 1] + [tasks[|tasks| - 1]];
      OpenTasksExact(tasks[..|tasks| - 1], scope, task);
    }
  }

  predicate ById(tasks: seq<CleanupRecord>) {
    forall i, j :: 0 <= i < j < |tasks| ==> tasks[i].id < tasks[j].id
  }

  lemma {:induction false} OpenTasksSorted(tasks: seq<CleanupRecord>, scope: Option<set<nat>>)
    requires ById(tasks)
    ensures ById(OpenTasks(tasks, scope))
  {
    if tasks != [] {
      var n := |tasks| - 1;
      OpenTasksSorted(tasks[..n], scope);
      var rest := OpenTasks(tasks[..n], scope);
      forall i | 0 <= i < |rest|
        ensures rest[i].id < tasks[n].id
      {
        OpenTasksExact(tasks[..n], scope, rest[i]);
        var k :| 0 <= k < n && tasks[k] == rest[i];
      }
    }
  }

  lemma {:induction false} TaskListSorted(s: State, n: nat)
    requires TasksOk(s)
    ensures ById(TaskList(s.cleanups, n))
  {
    if n > 0 {
      TaskListSorted(s, n - 1);
      TaskListExact(s, n - 1);
      if n - 1 in s.cleanups {
        assert TaskOk(s, n - 1);
      }
    }
  }

  lemma ListedExact(t: State, task: CleanupRecord)
    requires Valid(t)
    ensures task in TaskList(t.cleanups, t.nextId) <==> task.id in t.cleanups && t.cleanups[task.id] == task
    ensures task in TaskList(t.cleanups, t.nextId) ==> task.holding.id == task.id
  {
    hide Valid;
    TasksBelowNext(t);
    TaskListExact(t, t.nextId);
    var items := TaskList(t.cleanups, t.nextId);
    if task.id in t.cleanups && t.cleanups[task.id] == task {
      assert ListsTask(items, task.id);
      var k :| 0 <= k < |items| && items[k].id == task.id;
      assert items[k] == task;
    }
  }

  lemma ReportExact(s: State, log: seq<Attempt>, t: State, scope: Option<set<nat>>, c: Call)
    requires Ongoing(s, log, t, scope, c) && Answered(s, log, t, c)
    ensures Reports(s, t, scope, CleanupReport(Completed(log), OpenTasks(TaskList(t.cleanups, t.nextId), scope)))
  {
    hide Valid, Answered, RanTo, WithinScope, LogOk, TaskList, OpenTasks, Completed, RetiredSince;
    OngoingValid(s, log, t, scope, c);
    AnsweredHandles(s, log, t, c);
    CompletedOnce(s, log, c);
    forall h
      ensures h in Completed(log) <==> RetiredHandle(s, t, h)
    {
      CompletedHandles(s, log, t, h);
    }
    TasksBelowNext(t);
    TaskListSorted(t, t.nextId);
    var tasks := TaskList(t.cleanups, t.nextId);
    OpenTasksSorted(tasks, scope);
    forall task
      ensures task in OpenTasks(tasks, scope) <==>
                task.id in t.cleanups && t.cleanups[task.id] == task && !task.state.Done? &&
                (scope.Some? ==> task.id in scope.value)
    {
      OpenTasksExact(tasks, scope, task);
      ListedExact(t, task);
    }
  }

  lemma CompletedHandles(s: State, log: seq<Attempt>, t: State, h: Handle)
    requires forall a {:trigger a in log} :: a in log ==>
               && a.work.task.holding.id == a.work.task.id
               && (a.outcome.Discharges() <==> RetiredSince(s, t, a.work.task.id))
               && a.work.task.id in s.holdings
               && a.work.task.holding == Handle(a.work.task.id, s.holdings[a.work.task.id].generation)
    requires forall id :: RetiredSince(s, t, id) ==> ActedOn(log, id)
    ensures h in Completed(log) <==> RetiredHandle(s, t, h)
  {
    hide RetiredSince;
    CompletedExact(log, h);
    if Completes(log, h) {
      var a :| a in log && a.outcome.Discharges() && a.work.task.holding == h;
    }
    if RetiredHandle(s, t, h) {
      var a :| a in log && a.work.task.id == h.id;
      assert a.work.task.holding == h;
    }
  }

  // The call terminates, tries no task twice, reports what it completed and what is left,
  // and stops only when every task it may touch is stuck.
  method RunCleanup(l: Ledger, scope: Option<set<nat>>, gone: CleanupRecord -> bool, c: Call)
    returns (r: Result<CleanupReport, LedgerError>, ghost log: seq<Attempt>)
    requires l.Valid()
    modifies l
    ensures l.Valid() && l.identity == old(l.identity)
    ensures var s := Recovered(old(l.View()), gone, c.now);
            var t := l.View();
            && Ongoing(s, log, t, scope, c) && Answered(s, log, t, c)
            && (r.Ok? ==>
                  && MaximalProgress(s, log, t, scope) && Reports(s, t, scope, r.value)
                  && r.value == CleanupReport(Completed(log), OpenTasks(TaskList(t.cleanups, t.nextId), scope)))
            && (r.Err? ==> r.error == OutOfRange && exists id :: AtLimit(s, id) && Allowed(s.holdings, scope, id))
  {
    hide LedgerState.Valid, UniqueIds, Ongoing, Recovered, MaximalProgress, Allowed, AtLimit, Completed, OpenTasks;
    hide TaskList, Answered, Reports;
    RecoverWorkers(l, gone, c.now);
    ghost var s := l.View();
    CallStarts(s, scope, c);
    log := [];
    var attempted: set<nat> := {};
    var completed: seq<Handle> := [];
    assert LogIds(log) == {};
    assert Completed(log) == [] by { NothingCompleted(); }
    var progress := true;
    while progress
      invariant l.Valid() && l.identity == old(l.identity)
      invariant Ongoing(s, log, l.View(), scope, c) && attempted == LogIds(log)
      invariant completed == Completed(log)
      invariant |attempted| <= |s.cleanups.Keys|
      invariant !progress ==> MaximalProgress(s, log, l.View(), scope)
      decreases |s.cleanups.Keys| - |attempted|, progress
    {
      var error, tried, more, moved, log' := Pass(l, scope, attempted, c, s, log);
      log := log';
      AttemptsBounded(s, log, l.View(), scope, c);
      if error.Some? {
        OngoingAnswered(s, log, l.View(), scope, c);
        return Err(error.value), log;
      }
      attempted, completed, progress := tried, completed + more, moved;
    }
    var pending := Pending(l, scope);
    OngoingAnswered(s, log, l.View(), scope, c);
    ReportExact(s, log, l.View(), scope, c);
    return Ok(CleanupReport(completed, pending)), log;
  }

  lemma NothingCompleted()
    ensures Completed([]) == []
  {
  }
}
