// The multi-pass cleanup runner, worker recovery, and the teardown built on it.

module Runner {
  import opened Prelude
  import opened LedgerTypes
  import opened LedgerState
  import opened LedgerOps
  import opened LedgerInvariant
  import opened LedgerRows
  import opened LedgerObject
  import opened RunnerSpec
  import Cleanup = LedgerCleanup
  import Ret = Retirement

  // ----- listing tasks in id order -----

  function TaskList(tasks: map<nat, CleanupRecord>, n: nat): seq<CleanupRecord> {
    if n == 0 then []
    else if n - 1 in tasks then TaskList(tasks, n - 1) + [tasks[n - 1]]
    else TaskList(tasks, n - 1)
  }

  ghost predicate ListsTask(items: seq<CleanupRecord>, id: nat) {
    exists k :: 0 <= k < |items| && items[k].id == id
  }

  lemma {:induction false} TaskListExact(s: State, n: nat)
    requires TasksOk(s)
    ensures forall k {:trigger TaskList(s.cleanups, n)[k]} :: 0 <= k < |TaskList(s.cleanups, n)| ==>
              var t := TaskList(s.cleanups, n)[k];
                t.id < n && t.id in s.cleanups && s.cleanups[t.id] == t && t.holding.id == t.id
    ensures forall id {:trigger s.cleanups[id]} :: id in s.cleanups && id < n ==> ListsTask(TaskList(s.cleanups, n), id)
  {
    if n > 0 {
      TaskListExact(s, n - 1);
      var items := TaskList(s.cleanups, n);
      if n - 1 in s.cleanups {
        assert TaskOk(s, n - 1);
        assert items[|items| - 1].id == n - 1;
      }
      forall id | id in s.cleanups && id < n
        ensures ListsTask(items, id)
      {
        if id < n - 1 {
          assert s.cleanups[id] == s.cleanups[id];
          assert ListsTask(TaskList(s.cleanups, n - 1), id);
          var k :| 0 <= k < |TaskList(s.cleanups, n - 1)| && TaskList(s.cleanups, n - 1)[k].id == id;
          assert items[k].id == id;
        }
      }
    }
  }

  lemma TasksBelowNext(s: State)
    requires Valid(s)
    ensures RowsOk(s) && TasksOk(s)
    ensures forall id :: id in s.cleanups ==> id < s.nextId && id in s.holdings
  {
    forall id | id in s.cleanups
      ensures id < s.nextId && id in s.holdings
    {
      assert TaskOk(s, id);
    }
  }

  method CleanupTasks(l: Ledger) returns (tasks: seq<CleanupRecord>)
    ensures tasks == TaskList(l.cleanups, l.nextId)
  {
    tasks := [];
    for id := 0 to l.nextId
      invariant tasks == TaskList(l.cleanups, id)
    {
      if id in l.cleanups {
        tasks := tasks + [l.cleanups[id]];
      }
    }
  }

  // ----- worker recovery -----

  // Interrupted attempts, as the worker registry and the process table show them.
  predicate Interruptible(t: CleanupRecord, gone: CleanupRecord -> bool) {
    t.state.Running? && gone(t)
  }

  function RecoveredTask(t: CleanupRecord, gone: CleanupRecord -> bool, now: Timestamp): CleanupRecord {
    if Interruptible(t, gone) then t.(state := Unknown(Interrupted), updatedAt := now) else t
  }

  function RecoveredUpTo(s: State, gone: CleanupRecord -> bool, now: Timestamp, n: nat): State {
    s.(cleanups := map id | id in s.cleanups ::
      if id < n then RecoveredTask(s.cleanups[id], gone, now) else s.cleanups[id])
  }

  function Recovered(s: State, gone: CleanupRecord -> bool, now: Timestamp): State {
    s.(cleanups := map id | id in s.cleanups :: RecoveredTask(s.cleanups[id], gone, now))
  }

  // Recovery touches exactly the running attempts whose worker is gone: each is left retryable as
  // interrupted, and every other record and every row is as it was.
  lemma RecoveredExact(s: State, gone: CleanupRecord -> bool, now: Timestamp)
    ensures var t := Recovered(s, gone, now);
            && t == s.(cleanups := t.cleanups) && t.cleanups.Keys == s.cleanups.Keys
            && forall id :: id in s.cleanups ==>
                 var task := s.cleanups[id];
                 t.cleanups[id] ==
                   if task.state.Running? && gone(task)
                   then CleanupRecord(task.id, task.key, task.holding,
                     Unknown("worker interrupted before durable confirmation"), task.attempts, task.requestedAt, now)
                   else task
  {
  }

  lemma RecoverOne(s: State, gone: CleanupRecord -> bool, now: Timestamp, id: nat)
    requires id in s.cleanups && s.cleanups[id].id == id
    ensures var mid := RecoveredUpTo(s, gone, now, id);
            RecoveredUpTo(s, gone, now, id + 1) ==
              if Interruptible(s.cleanups[id], gone) then Abandon(mid, s.cleanups[id], now).state else mid
  {
    var mid := RecoveredUpTo(s, gone, now, id);
    assert mid.cleanups[id] == s.cleanups[id];
    if Interruptible(s.cleanups[id], gone) {
      assert RecoveredUpTo(s, gone, now, id + 1).cleanups == Abandon(mid, s.cleanups[id], now).state.cleanups;
    } else {
      assert RecoveredUpTo(s, gone, now, id + 1).cleanups == mid.cleanups;
    }
  }

  lemma RecoveryBounds(s: State, gone: CleanupRecord -> bool, now: Timestamp)
    requires Valid(s)
    ensures RecoveredUpTo(s, gone, now, 0) == s
    ensures RecoveredUpTo(s, gone, now, s.nextId) == Recovered(s, gone, now)
  {
    TasksBelowNext(s);
    assert RecoveredUpTo(s, gone, now, 0).cleanups == s.cleanups;
    assert RecoveredUpTo(s, gone, now, s.nextId).cleanups == Recovered(s, gone, now).cleanups;
  }

  // Every attempt whose worker is gone becomes retryable; nothing else changes.
  method RecoverWorkers(l: Ledger, gone: CleanupRecord -> bool, now: Timestamp)
    requires l.Valid()
    modifies l
    ensures l.Valid() && l.identity == old(l.identity)
    ensures l.View() == Recovered(old(l.View()), gone, now)
  {
    hide LedgerState.Valid, UniqueIds, Abandon, Interruptible, RecoveredUpTo;
    ghost var s := l.View();
    TasksBelowNext(s);
    RecoveryBounds(s, gone, now);
    var tasks, n := l.cleanups, l.nextId;
    for id := 0 to n
      invariant l.Valid() && l.identity == old(l.identity)
      invariant l.View() == RecoveredUpTo(s, gone, now, id)
    {
      if id in tasks {
        assert TaskOk(s, id);
        RecoverOne(s, gone, now, id);
        if Interruptible(tasks[id], gone) {
          var r := Cleanup.AbandonCleanup(l, tasks[id], now);
        }
      } else {
        assert RecoveredUpTo(s, gone, now, id + 1) == RecoveredUpTo(s, gone, now, id)
                 by { RecoverSkip(s, gone, now, id); }
      }
    }
  }

  lemma RecoverSkip(s: State, gone: CleanupRecord -> bool, now: Timestamp, id: nat)
    requires id !in s.cleanups
    ensures RecoveredUpTo(s, gone, now, id + 1) == RecoveredUpTo(s, gone, now, id)
  {
    assert RecoveredUpTo(s, gone, now, id + 1).cleanups == RecoveredUpTo(s, gone, now, id).cleanups;
  }

  // ----- scopes -----

  // The scope and its retiring ancestors.
  ghost predicate IsPermitted(hs: Rows, scope: set<nat>, id: nat) {
    || id in scope
    || (id in hs && hs[id].state.Retiring? && exists d :: d in scope && Below(hs, d, id))
  }

  ghost predicate Allowed(hs: Rows, scope: Option<set<nat>>, id: nat) {
    scope.None? || IsPermitted(hs, scope.value, id)
  }

  lemma BelowUnfolds(hs: Rows, d: nat, x: nat)
    ensures Below(hs, d, x) <==> d in hs && (d == x || (hs[d].parent.Some? && Below(hs, hs[d].parent.value, x)))
  {
    if Below(hs, d, x) {
      var n: nat :| BelowIn(hs, d, x, n);
      if n > 0 {
        assert BelowIn(hs, hs[d].parent.value, x, n - 1);
      }
    }
    if d in hs && d == x {
      assert BelowIn(hs, d, x, 0);
    }
    if d in hs && hs[d].parent.Some? && Below(hs, hs[d].parent.value, x) {
      var n: nat :| BelowIn(hs, hs[d].parent.value, x, n);
      assert BelowIn(hs, d, x, n + 1);
    }
  }

  // Going from `d` to `x` along parents.
  ghost predicate Climbs(hs: Rows, chain: seq<nat>, d: nat, x: nat) {
    && chain != [] && chain[0] == d && chain[|chain| - 1] == x
    && (forall i {:trigger chain[i]} :: 0 <= i < |chain| ==> chain[i] in hs)
    && forall i {:trigger chain[i]} :: 0 <= i < |chain| - 1 ==> hs[chain[i]].parent == Some(chain[i + 1])
  }

  lemma {:induction false} BelowClimbs(hs: Rows, d: nat, x: nat, n: nat) returns (chain: seq<nat>)
    requires BelowIn(hs, d, x, n)
    ensures Climbs(hs, chain, d, x)
    decreases n
  {
    if n == 0 {
      chain := [d];
    } else {
      var rest := BelowClimbs(hs, hs[d].parent.value, x, n - 1);
      chain := [d] + rest;
      assert forall i :: 0 < i < |chain| ==> chain[i] == rest[i - 1];
    }
  }

  lemma {:induction false} ClimbsBelow(hs: Rows, d: nat, x: nat, chain: seq<nat>)
    requires Climbs(hs, chain, d, x)
    ensures BelowIn(hs, d, x, |chain| - 1)
    decreases |chain|
  {
    assert chain[0] in hs;
    if |chain| > 1 {
      assert chain[1..][|chain| - 2] == x;
      ClimbsBelow(hs, chain[1], x, chain[1..]);
    }
  }

  // What a call with a scope may touch: the scope itself, and what retires above it.
  lemma AllowedExact(hs: Rows, scope: set<nat>, x: nat)
    ensures Allowed(hs, Some(scope), x) <==>
            || x in scope
            || (x in hs && hs[x].state.Retiring? && exists d, chain :: d in scope && Climbs(hs, chain, d, x))
  {
    forall d | d in scope && Below(hs, d, x)
      ensures exists chain :: Climbs(hs, chain, d, x)
    {
      var n: nat :| BelowIn(hs, d, x, n);
      var chain := BelowClimbs(hs, d, x, n);
    }
    forall d, chain | d in scope && Climbs(hs, chain, d, x)
      ensures Below(hs, d, x)
    {
      ClimbsBelow(hs, d, x, chain);
    }
  }

  ghost predicate RetiringAbove(hs: Rows, id: nat, x: nat) {
    x in hs && hs[x].state.Retiring? && x != id && Below(hs, id, x)
  }

  method RetiringAncestors(l: Ledger, id: nat) returns (ids: set<nat>)
    requires l.Valid()
    ensures var hs := l.View().holdings;
            forall x :: x in ids <==> RetiringAbove(hs, id, x)
  {
    ids := {};
    ghost var hs := l.View().holdings;
    var at := l.IndexOf(id);
    forall x
      ensures Below(hs, id, x) <==> id in hs && (id == x || (hs[id].parent.Some? && Below(hs, hs[id].parent.value, x)))
    {
      BelowUnfolds(hs, id, x);
    }
    if at.None? {
      return;
    }
    var parent := l.holdings[at.value].parent;
    assert Rooted(hs, id);
    ghost var n: nat :| RootedIn(hs, id, n);
    ghost var d := RootedHasDepth(hs, id, n);
    ghost var below := id;
    while parent.Some?
      invariant below in hs && parent == hs[below].parent && RootedIn(hs, below, n) && AtDepth(hs, id, d)
      invariant parent.Some? ==> exists e :: e < d && AtDepth(hs, parent.value, e)
      invariant forall x :: x in ids ==> RetiringAbove(hs, id, x)
      invariant forall x :: RetiringAbove(hs, id, x) ==> x in ids || (parent.Some? && Below(hs, parent.value, x))
      invariant forall x :: parent.Some? && Below(hs, parent.value, x) ==> Below(hs, id, x)
      decreases n
    {
      var p := parent.value;
      forall x
        ensures Below(hs, p, x) <==> p in hs && (p == x || (hs[p].parent.Some? && Below(hs, hs[p].parent.value, x)))
      {
        BelowUnfolds(hs, p, x);
      }
      ghost var e :| e < d && AtDepth(hs, p, e);
      if p == id {
        DepthUnique(hs, id, d, e);
      }
      var i := l.IndexOf(p);
      var h := l.holdings[i.value];
      if h.state.Retiring? {
        ids := ids + {p};
      }
      assert h.parent.Some? ==> AtDepth(hs, h.parent.value, e - 1);
      below, n := p, n - 1;
      parent := h.parent;
    }
  }

  method Permitted(l: Ledger, scope: set<nat>) returns (ids: set<nat>)
    requires l.Valid()
    ensures forall x :: x in ids <==> IsPermitted(l.View().holdings, scope, x)
  {
    hide LedgerState.Valid, UniqueIds, Below;
    ghost var hs := l.View().holdings;
    ids := scope;
    var todo := scope;
    while todo != {}
      invariant todo <= scope <= ids
      invariant forall x :: x in ids ==> IsPermitted(hs, scope, x)
      invariant forall x, d :: d in scope && d !in todo && RetiringAbove(hs, d, x) ==> x in ids
      decreases |todo|
    {
      var d :| d in todo;
      var more := RetiringAncestors(l, d);
      ids := ids + more;
      todo := todo - {d};
    }
    forall x | IsPermitted(hs, scope, x)
      ensures x in ids
    {
      if x !in scope {
        var d :| d in scope && Below(hs, d, x);
        assert RetiringAbove(hs, d, x);
      }
    }
  }
}
