// Tearing down everything an owner occupies, and the periodic sweep.

module Teardown {
  import opened Prelude
  import opened LedgerTypes
  import opened LedgerState
  import opened LedgerOps
  import opened LedgerInvariant
  import opened LedgerRows
  import opened LedgerObject
  import opened LedgerClosures
  import opened RunnerSpec
  import opened Runner
  import opened RunnerMain
  import opened Retirement
  import Cleanup = LedgerCleanup

  // ----- the deepest row of a set -----

  lemma {:induction false} DeepestOf(hs: Rows, ids: set<nat>) returns (id: nat, d: nat)
    requires Forest(hs) && ids <= hs.Keys && ids != {}
    ensures id in ids && AtDepth(hs, id, d)
    ensures forall x, e: nat {:trigger AtDepth(hs, x, e)} :: x in ids && AtDepth(hs, x, e) ==> e <= d
    decreases |ids|
  {
    var x :| x in ids;
    assert Rooted(hs, x);
    var n: nat :| RootedIn(hs, x, n);
    var dx := RootedHasDepth(hs, x, n);
    id, d := x, dx;
    var rest := ids - {x};
    if rest != {} {
      var y, e := DeepestOf(hs, rest);
      if e > d {
        id, d := y, e;
      }
    }
    forall z, e: nat {:trigger AtDepth(hs, z, e)} | z in ids && AtDepth(hs, z, e)
      ensures e <= d
    {
      if z == x {
        DepthUnique(hs, x, e, dx);
      }
    }
  }

  // ----- what a call does with each task -----

  lemma AttemptTarget(s: State, log: seq<Attempt>, t: State, scope: Option<set<nat>>, c: Call, k: nat)
    requires Ongoing(s, log, t, scope, c) && k < |log|
    ensures log[k].outcome == Decide(c.world, log[k].work)
    ensures log[k].work.task.id in s.holdings && log[k].work.target == s.holdings[log[k].work.task.id].target
  {
    hide Valid, RanTo, WithinScope;
    LogPrefix(s, log, c, k);
    LogEffect(s, log[..k], c);
    var mid := After(s, log[..k], c);
    RanFacts(s, log[..k], mid, c);
    AttemptEffect(mid, log[k], c);
    assert RowEvolves(s.holdings[log[k].work.task.id], mid.holdings[log[k].work.task.id]);
  }

  lemma RanFacts(s: State, log: seq<Attempt>, t: State, c: Call)
    requires RanTo(s, log, t, c)
    ensures Valid(t) && Evolves(s, t) && t.holdings.Keys == s.holdings.Keys && t.cleanups.Keys == s.cleanups.Keys
    ensures forall id {:trigger t.holdings[id]} :: id in t.holdings ==>
              t.holdings[id] == s.holdings[id] || t.holdings[id] == s.holdings[id].(state := Retired(c.now))
  {
  }

  lemma NoFailure(s: State, log: seq<Attempt>, t: State, scope: Option<set<nat>>, c: Call, id: nat)
    requires Ongoing(s, log, t, scope, c)
    requires forall w: CleanupWork :: c.world(w).Discharges()
    requires id in s.holdings && !s.holdings[id].target.Unresolved?
    ensures !Failed(log, id)
  {
    hide Ongoing;
    forall a | a in log && a.work.task.id == id
      ensures a.outcome.Discharges()
    {
      var k :| 0 <= k < |log| && log[k] == a;
      AttemptTarget(s, log, t, scope, c, k);
    }
  }

  // A retiring holding has an open task of its own id.
  lemma RetiringHasTask(t: State, id: nat)
    requires RowsOk(t) && RetirementsOk(t) && TasksOk(t) && id in t.holdings && t.holdings[id].state.Retiring?
    ensures id in t.cleanups && !t.cleanups[id].state.Done? && t.holdings[id].state == Retiring(id)
  {
    assert RowOk(t, id) && RetirementOk(t, id);
    assert TaskOk(t, t.holdings[id].state.task);
  }

  // ----- the cooperative case -----

  // Every executor answer confirms, every running attempt under the closure was orphaned,
  // no target is unresolved, and no attempt counter is exhausted.
  ghost predicate Cooperative(s: State, ids: set<nat>, gone: CleanupRecord -> bool, c: Call) {
    && KernelKeys(s)
    && (forall w: CleanupWork :: c.world(w).Discharges())
    && (forall id {:trigger s.holdings[id]} :: id in ids && id in s.holdings ==> !s.holdings[id].target.Unresolved?)
    && (forall id {:trigger s.cleanups[id]} :: id in s.cleanups ==>
          && s.cleanups[id].attempts < I64_MAX
          && (id in ids && s.cleanups[id].state.Running? ==> gone(s.cleanups[id])))
  }

  lemma NoneAtLimit(s0: State, s1: State, ids: set<nat>, gone: CleanupRecord -> bool, c: Call)
    requires Cooperative(s0, ids, gone, c) && TasksAdded(s0.cleanups, s1.cleanups)
    ensures var s := Recovered(s1, gone, c.now);
            forall id :: !AtLimit(s, id)
  {
    var s := Recovered(s1, gone, c.now);
    forall id
      ensures !AtLimit(s, id)
    {
      if id in s.cleanups {
        assert s1.cleanups[id].attempts == s.cleanups[id].attempts;
      }
    }
  }

  lemma NoneRunning(s0: State, s1: State, ids: set<nat>, gone: CleanupRecord -> bool, c: Call, id: nat)
    requires Cooperative(s0, ids, gone, c) && TasksAdded(s0.cleanups, s1.cleanups) && id in ids
    ensures var s := Recovered(s1, gone, c.now);
            id in s.cleanups ==> !s.cleanups[id].state.Running?
  {
    if id in s1.cleanups {
      assert s1.cleanups[id] == s1.cleanups[id];
    }
  }

  // Rows only ever leave the closure: a child that still occupies was in it from the start.
  lemma ChildInClosure(s0: State, s1: State, t: State, handles: seq<Handle>, log: seq<Attempt>, ids: set<nat>, c: Call,
                       gone: CleanupRecord -> bool, id: nat, k: nat)
    requires RequestedAll(s0, s1, handles) && RanTo(Recovered(s1, gone, c.now), log, t, c)
    requires ClosedUnderChildren(s0.holdings, false, ids) && id in ids
    requires ChildOf(t.holdings, k, id) && Occupying(t.holdings, k)
    ensures k in ids
  {
    var s := Recovered(s1, gone, c.now);
    assert k in s.holdings && k in s1.holdings && k in s0.holdings;
    assert t.holdings[k] == s.holdings[k];
    assert s1.holdings[k].state.Occupies() ==> s0.holdings[k].state.Occupies();
    assert Visible(s0.holdings, false, k);
  }

  lemma TeardownComplete(s0: State, s1: State, t: State, handles: seq<Handle>, log: seq<Attempt>, ids: set<nat>,
                         c: Call, gone: CleanupRecord -> bool)
    requires RequestedAll(s0, s1, handles)
    requires forall id :: id in ids ==> id in s1.holdings && !s1.holdings[id].state.Active?
    requires ClosedUnderChildren(s0.holdings, false, ids)
    requires Cooperative(s0, ids, gone, c)
    requires Ongoing(Recovered(s1, gone, c.now), log, t, Some(ids), c)
    requires MaximalProgress(Recovered(s1, gone, c.now), log, t, Some(ids))
    ensures forall id :: id in ids ==> id in t.holdings && t.holdings[id].state.Retired?
  {
    hide Cooperative, ClosedUnderChildren, LogOk, WithinScope, TasksAdded, RowsOk, Forest, RetirementsOk, TasksOk;
    hide NoTargetConflicts, KeysUnique, PoolsOk, Numbered, Evolves;
    var s := Recovered(s1, gone, c.now);
    RanFacts(s, log, t, c);
    var left := set id | id in ids && id in t.holdings && t.holdings[id].state.Occupies();
    if left != {} {
      var id, d := DeepestOf(t.holdings, left);
      StuckAtDeepest(s0, s1, t, handles, log, ids, c, gone, id);
      var k :| k in t.holdings && ChildOf(t.holdings, k, id) && Occupying(t.holdings, k);
      ChildInClosure(s0, s1, t, handles, log, ids, c, gone, id, k);
      assert k in left;
      assert AtDepth(t.holdings, k, d + 1);
    }
    forall id | id in ids
      ensures id in t.holdings && t.holdings[id].state.Retired?
    {
      assert id !in left;
    }
  }

  // In the cooperative case only an occupying child can keep a closure row.
  lemma StuckAtDeepest(s0: State, s1: State, t: State, handles: seq<Handle>, log: seq<Attempt>, ids: set<nat>, c: Call,
                       gone: CleanupRecord -> bool, id: nat)
    requires RequestedAll(s0, s1, handles) && Cooperative(s0, ids, gone, c)
    requires id in ids && id in s1.holdings && !s1.holdings[id].state.Active?
    requires Ongoing(Recovered(s1, gone, c.now), log, t, Some(ids), c)
    requires MaximalProgress(Recovered(s1, gone, c.now), log, t, Some(ids))
    requires id in t.holdings && t.holdings[id].state.Occupies()
    ensures HasOccupyingChild(t.holdings, id)
  {
    hide HasOccupyingChild, LogOk, WithinScope, Evolves, Numbered, Forest, NoTargetConflicts, KeysUnique, PoolsOk;
    var s := Recovered(s1, gone, c.now);
    RanFacts(s, log, t, c);
    RetiringHasTask(t, id);
    NoneRunning(s0, s1, ids, gone, c, id);
    TargetKept(s0, s1, handles, id);
    NoFailure(s, log, t, Some(ids), c, id);
    assert Allowed(t.holdings, Some(ids), id);
    assert Stuck(s, log, t, id);
  }

  lemma TargetKept(s0: State, s1: State, handles: seq<Handle>, id: nat)
    requires RequestedAll(s0, s1, handles) && id in s1.holdings
    ensures id in s0.holdings && s1.holdings[id].target == s0.holdings[id].target
  {
  }

  // ----- requests in a batch -----

  method RequestBatch(l: Ledger, handles: seq<Handle>, realm: string, now: Timestamp) returns (accepted: bool)
    requires l.Valid()
    modifies l
    ensures l.Valid() && l.identity == old(l.identity)
    ensures var step := RequestMany(old(l.View()), handles, realm, now);
            (accepted <==> step.result.Ok?) && (accepted ==> l.View() == step.state)
  {
    hide LedgerState.Valid, UniqueIds, LedgerOps.RequestRetirement;
    ghost var s := l.View();
    for k := 0 to |handles|
      invariant l.Valid() && l.identity == old(l.identity)
      invariant RequestMany(s, handles, realm, now) == RequestMany(l.View(), handles[k..], realm, now)
    {
      assert handles[k..][0] == handles[k] && handles[k..][1..] == handles[k + 1..];
      var r := Cleanup.RequestRetirement(l, handles[k], CleanupKey(realm, handles[k].id), now);
      if r.Err? {
        return false;
      }
    }
    return true;
  }

  // ----- teardown of an owner -----

  predicate OwnedSeed(h: Holding, subject: Name) {
    h.state.Occupies() && h.subject == subject
  }

  ghost function Seeds(hs: Rows, subject: Name): set<nat> {
    set id | id in hs && OwnedSeed(hs[id], subject)
  }

  method OwnerSeeds(l: Ledger, subject: Name) returns (items: seq<nat>)
    requires UniqueIds(l.holdings)
    ensures Cleanup.Distinct(items) && Elements(items) == Seeds(RowsOf(l.holdings), subject)
  {
    var vec := l.holdings;
    items := [];
    for k := 0 to |vec|
      invariant Cleanup.Distinct(items)
      invariant forall i {:trigger items[i]} :: 0 <= i < |items| ==> SeedBefore(vec, k, subject, items[i])
      invariant forall j :: 0 <= j < k && OwnedSeed(vec[j], subject) ==> vec[j].id in items
    {
      if OwnedSeed(vec[k], subject) {
        IdNotBefore(vec, k);
        DistinctSnoc(items, vec[k].id);
        ghost var before := items;
        items := items + [vec[k].id];
        assert items[|before|] == vec[k].id && SeedBefore(vec, k + 1, subject, items[|before|]);
        assert forall i :: 0 <= i < |before| ==> items[i] == before[i];
      }
    }
    forall id | id in Seeds(RowsOf(vec), subject)
      ensures id in items
    {
      var j :| 0 <= j < |vec| && vec[j].id == id;
      assert RowsOf(vec)[id] == vec[j];
    }
  }

  predicate SeedBefore(vec: seq<Holding>, n: nat, subject: Name, id: nat)
    requires n <= |vec|
  {
    exists j :: 0 <= j < n && vec[j].id == id && OwnedSeed(vec[j], subject)
  }

  method Refs(l: Ledger, ids: seq<nat>) returns (handles: seq<Handle>)
    requires l.Valid() && forall i :: 0 <= i < |ids| ==> ids[i] in l.View().holdings
    ensures |handles| == |ids|
    ensures forall i {:trigger handles[i]} :: 0 <= i < |ids| ==>
              handles[i].id == ids[i] && Resolve(l.View(), handles[i]).Ok?
  {
    handles := [];
    for k := 0 to |ids|
      invariant |handles| == k
      invariant forall i {:trigger handles[i]} :: 0 <= i < k ==>
                  handles[i].id == ids[i] && Resolve(l.View(), handles[i]).Ok?
    {
      var i := l.IndexOf(ids[k]);
      handles := handles + [l.holdings[i.value].Ref()];
    }
  }

  lemma SeedsPresent(s: State, subject: Name, ids: set<nat>)
    requires LeastClosure(s.holdings, false, Seeds(s.holdings, subject), ids)
    ensures ids <= s.holdings.Keys
  {
    assert ClosedUnderChildren(s.holdings, false, s.holdings.Keys);
  }

  // Requests the whole occupying closure of the owner on a staged view.
  method RequestTeardown(l: Ledger, subject: Name, realm: string, now: Timestamp, identity: nat)
    returns (staged: Ledger, accepted: bool, ids: set<nat>, ghost handles: seq<Handle>)
    requires l.Valid()
    ensures fresh(staged) && staged.Valid()
    ensures LeastClosure(l.View().holdings, false, Seeds(l.View().holdings, subject), ids)
    ensures accepted ==> RequestedAll(l.View(), staged.View(), handles)
    ensures accepted ==> forall id :: id in ids ==>
              id in staged.View().holdings && !staged.View().holdings[id].state.Active?
    ensures KernelKeys(l.View()) ==> accepted && KernelKeys(staged.View())
  {
    hide LedgerState.Valid, UniqueIds, LeastClosure, RequestedAll, KernelKeys, RequestMany, Seeds;
    staged := new Ledger.Clone(l, identity);
    var seeds := OwnerSeeds(staged, subject);
    SeedKeys(l.View().holdings, subject);
    var items := Descendants(staged, false, seeds);
    ids := Elements(items);
    SeedsPresent(l.View(), subject, ids);
    var refs := Refs(staged, items);
    handles := refs;
    accepted := RequestBatch(staged, refs, realm, now);
    if accepted {
      RequestManyEffect(l.View(), refs, realm, now);
      AllRequested(l.View(), staged.View(), items, refs);
    }
    KernelBatch(l.View(), refs, realm, now);
  }

  lemma KernelBatch(s: State, handles: seq<Handle>, realm: string, now: Timestamp)
    requires LedgerState.Valid(s)
    requires forall i {:trigger handles[i]} :: 0 <= i < |handles| ==> Resolve(s, handles[i]).Ok?
    ensures KernelKeys(s) ==>
              RequestMany(s, handles, realm, now).result.Ok? && KernelKeys(RequestMany(s, handles, realm, now).state)
  {
    if KernelKeys(s) {
      RequestManyAccepted(s, handles, realm, now);
    }
  }

  lemma SeedKeys(hs: Rows, subject: Name)
    ensures Seeds(hs, subject) <= hs.Keys
  {
  }

  lemma AllRequested(s: State, t: State, items: seq<nat>, handles: seq<Handle>)
    requires RequestedAll(s, t, handles) && |handles| == |items|
    requires forall i {:trigger handles[i]} :: 0 <= i < |items| ==> handles[i].id == items[i]
    ensures forall id :: id in Elements(items) ==> id in t.holdings && !t.holdings[id].state.Active?
  {
    forall id | id in Elements(items)
      ensures id in t.holdings && !t.holdings[id].state.Active?
    {
      var i :| 0 <= i < |items| && items[i] == id;
      assert handles[i].id == id;
    }
  }

  // On return every holding of the closure is retired when the world cooperates; otherwise
  // what is left is exactly what maximal progress allows.
  method TeardownOwner(l: Ledger, subject: Name, realm: string, gone: CleanupRecord -> bool, c: Call, identity: nat)
    returns (view: Ledger, r: Result<CleanupReport, LedgerError>, ids: set<nat>, ghost log: seq<Attempt>,
      ghost requested: State)
    requires l.Valid()
    ensures view.Valid() && (view == l || fresh(view))
    ensures forall id :: id in ids <==> UnderOwner(l.View().holdings, subject, id)
    ensures r.Ok? ==>
              var s := Recovered(requested, gone, c.now);
              && Evolves(l.View(), requested)
              && (forall id :: id in ids ==> id in requested.holdings && !requested.holdings[id].state.Active?)
              && Ongoing(s, log, view.View(), Some(ids), c)
              && MaximalProgress(s, log, view.View(), Some(ids))
    ensures Cooperative(l.View(), ids, gone, c) ==>
              && r.Ok?
              && forall id :: UnderOwner(l.View().holdings, subject, id) ==>
                   id in view.View().holdings && view.View().holdings[id].state.Retired?
  {
    hide LedgerState.Valid, UniqueIds, LeastClosure, RequestedAll, Cooperative, Ongoing, MaximalProgress, Recovered;
    hide KernelKeys, AtLimit, Seeds, UnderOwner;
    var staged, accepted, scope, handles := RequestTeardown(l, subject, realm, c.now, identity);
    ids := scope;
    TeardownScope(l.View(), subject, ids);
    view, log, requested := staged, [], staged.View();
    CooperativeKeys(l.View(), ids, gone, c);
    if !accepted {
      view := l;
      return view, Err(InvalidCleanup), ids, log, requested;
    }
    r, log := RunCleanup(staged, Some(ids), gone, c);
    RequestedFacts(l.View(), requested, handles);
    if Cooperative(l.View(), ids, gone, c) {
      NoneAtLimit(l.View(), requested, ids, gone, c);
      ClosureIsClosed(l.View().holdings, subject, ids);
      TeardownComplete(l.View(), requested, staged.View(), handles, log, ids, c, gone);
    }
  }

  lemma CooperativeKeys(s: State, ids: set<nat>, gone: CleanupRecord -> bool, c: Call)
    ensures Cooperative(s, ids, gone, c) ==> KernelKeys(s)
  {
  }

  lemma RequestedFacts(s: State, t: State, handles: seq<Handle>)
    requires RequestedAll(s, t, handles)
    ensures Evolves(s, t) && TasksAdded(s.cleanups, t.cleanups)
  {
  }

  lemma ClosureIsClosed(hs: Rows, subject: Name, ids: set<nat>)
    requires LeastClosure(hs, false, Seeds(hs, subject), ids)
    ensures ClosedUnderChildren(hs, false, ids)
  {
  }

  // At or below something the owner holds, and not yet retired.
  ghost predicate UnderOwner(hs: Rows, subject: Name, x: nat) {
    && x in hs && !hs[x].state.Retired?
    && exists d :: d in hs && hs[d].subject == subject && !hs[d].state.Retired? && Below(hs, x, d)
  }

  lemma {:induction false} UnderSeed(s: State, subject: Name, ids: set<nat>, x: nat, d: nat, n: nat)
    requires RowsOk(s) && LeastClosure(s.holdings, false, Seeds(s.holdings, subject), ids)
    requires BelowIn(s.holdings, x, d, n) && d in Seeds(s.holdings, subject) && !s.holdings[x].state.Retired?
    ensures x in ids
    decreases n
  {
    if n > 0 {
      assert RowOk(s, x);
      UnderSeed(s, subject, ids, s.holdings[x].parent.value, d, n - 1);
      assert Visible(s.holdings, false, x);
    }
  }

  // A teardown is about exactly what the owner holds and everything occupying below it.
  lemma TeardownScope(s: State, subject: Name, ids: set<nat>)
    requires LedgerState.Valid(s) && LeastClosure(s.holdings, false, Seeds(s.holdings, subject), ids)
    ensures forall x :: x in ids <==> UnderOwner(s.holdings, subject, x)
  {
    hide ClosedUnderChildren, RowOk;
    var hs := s.holdings;
    var under := set x | x in hs && UnderOwner(hs, subject, x);
    SeedsUnder(hs, subject);
    UnderClosed(hs, subject, under);
    SeedsPresent(s, subject, ids);
    forall x | UnderOwner(hs, subject, x)
      ensures x in ids
    {
      var d :| d in hs && hs[d].subject == subject && !hs[d].state.Retired? && Below(hs, x, d);
      var n: nat :| BelowIn(hs, x, d, n);
      UnderSeed(s, subject, ids, x, d, n);
    }
  }

  lemma SeedsUnder(hs: Rows, subject: Name)
    ensures forall x :: x in Seeds(hs, subject) ==> UnderOwner(hs, subject, x)
  {
    forall x | x in Seeds(hs, subject)
      ensures UnderOwner(hs, subject, x)
    {
      assert BelowIn(hs, x, x, 0);
      assert Below(hs, x, x);
    }
  }

  lemma UnderClosed(hs: Rows, subject: Name, under: set<nat>)
    requires forall x :: x in under <==> UnderOwner(hs, subject, x)
    ensures ClosedUnderChildren(hs, false, under)
  {
    forall c | Visible(hs, false, c) && hs[c].parent.Some? && hs[c].parent.value in under
      ensures c in under
    {
      var p := hs[c].parent.value;
      var d :| d in hs && hs[d].subject == subject && !hs[d].state.Retired? && Below(hs, p, d);
      var n: nat :| BelowIn(hs, p, d, n);
      assert BelowIn(hs, c, d, n + 1);
      assert Below(hs, c, d);
    }
  }

  // ----- the sweep -----

  lemma StillNothingDue(s: State, t: State, scope: Option<set<nat>>, c: Call, log: seq<Attempt>,
                        gone: CleanupRecord -> bool, now: Timestamp)
    requires Ongoing(Recovered(s, gone, c.now), log, t, scope, c) && DueActive(s.holdings, now) == {}
    ensures DueActive(t.holdings, now) == {}
  {
    hide LogOk, WithinScope, Evolves;
    RanFacts(Recovered(s, gone, c.now), log, t, c);
    forall id | id in t.holdings && t.holdings[id].state.Active?
      ensures !DueNow(t.holdings[id], now)
    {
      DueStep(s.holdings, now, id);
      assert t.holdings[id] == s.holdings[id];
      assert id !in DueActive(s.holdings, now);
    }
    NothingDue(t, now);
  }

  // Requests everything due, then runs the cleanup over all tasks: afterwards nothing is
  // due and every open task is stuck.
  method Sweep(l: Ledger, realm: string, gone: CleanupRecord -> bool, c: Call, identity: nat)
    returns (view: Ledger, r: Result<CleanupReport, LedgerError>, ghost log: seq<Attempt>, ghost requested: State)
    requires l.Valid()
    ensures view.Valid() && (view == l || fresh(view))
    ensures KernelKeys(l.View()) && r.Err? ==> r.error == OutOfRange
    ensures r.Ok? ==>
              && DueActive(view.View().holdings, c.now) == {}
              && Ongoing(Recovered(requested, gone, c.now), log, view.View(), None, c)
              && MaximalProgress(Recovered(requested, gone, c.now), log, view.View(), None)
  {
    hide LedgerState.Valid, UniqueIds, Ongoing, MaximalProgress, Recovered, KernelKeys, AtLimit, RequestMany, DueActive;
    var staged := new Ledger.Clone(l, identity);
    var handles := DueRetirements(staged, c.now);
    DueHandles(l, handles, c.now);
    KernelBatch(l.View(), handles, realm, c.now);
    var accepted := RequestBatch(staged, handles, realm, c.now);
    view, log, requested := staged, [], staged.View();
    if !accepted {
      view := l;
      return view, Err(InvalidCleanup), log, requested;
    }
    SweepLeavesNothingDue(l.View(), handles, realm, c.now);
    r, log := RunCleanup(staged, None, gone, c);
    if r.Ok? {
      StillNothingDue(requested, staged.View(), None, c, log, gone, c.now);
    }
  }

  lemma DueHandles(l: Ledger, handles: seq<Handle>, now: Timestamp)
    requires l.Valid() && handles == ActiveRefs(l.holdings, DueActive(l.View().holdings, now))
    ensures forall i {:trigger handles[i]} :: 0 <= i < |handles| ==> Resolve(l.View(), handles[i]).Ok?
    ensures forall id :: id in DueActive(l.View().holdings, now) ==> exists i ::
              0 <= i < |handles| && handles[i].id == id
  {
    var hs := l.View().holdings;
    var due := DueActive(hs, now);
    forall i | 0 <= i < |handles|
      ensures Resolve(l.View(), handles[i]).Ok?
    {
      ActiveRefsExact(l.holdings, due, handles[i]);
      var j :| 0 <= j < |l.holdings| && l.holdings[j].state.Active? && l.holdings[j].id in due &&
        l.holdings[j].Ref() == handles[i];
      assert hs[l.holdings[j].id] == l.holdings[j];
    }
    forall id | id in due
      ensures exists i :: 0 <= i < |handles| && handles[i].id == id
    {
      var j :| 0 <= j < |l.holdings| && l.holdings[j].id == id;
      assert hs[id] == l.holdings[j];
      ActiveRefsExact(l.holdings, due, hs[id].Ref());
      assert RefersTo(l.holdings, due, hs[id].Ref());
    }
  }
}
