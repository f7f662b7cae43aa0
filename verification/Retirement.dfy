// Retirement closures: which holdings a request takes along, and which are due.

module Retirement {
  import opened Prelude
  import opened LedgerTypes
  import opened LedgerState
  import opened LedgerOps
  import opened LedgerInvariant

  // ----- the closure is the least set closed under active parent-bound children -----

  ghost predicate ClosedUnderBound(hs: Rows, ids: set<nat>) {
    forall c {:trigger BoundChild(hs, c)} :: BoundChild(hs, c) && hs[c].parent.value in ids ==> c in ids
  }

  lemma {:induction false} BoundInSet(hs: Rows, root: nat, id: nat, n: nat, ids: set<nat>)
    requires BoundIn(hs, root, id, n) && root in ids && ClosedUnderBound(hs, ids)
    ensures id in ids
    decreases n
  {
    if id != root {
      BoundInSet(hs, root, hs[id].parent.value, n - 1, ids);
    }
  }

  lemma BoundStep(hs: Rows, root: nat, c: nat)
    requires BoundChild(hs, c) && Bound(hs, root, hs[c].parent.value)
    ensures Bound(hs, root, c)
  {
    var n: nat :| BoundIn(hs, root, hs[c].parent.value, n);
    assert BoundIn(hs, root, c, n + 1);
  }

  // Precisely the root and its active descendants linked by parent-bound leases.
  lemma ClosureExact(hs: Rows, root: nat)
    requires root in hs
    ensures root in BoundClosure(hs, root)
    ensures ClosedUnderBound(hs, BoundClosure(hs, root))
    ensures forall ids: set<nat> :: root in ids && ClosedUnderBound(hs, ids) ==> BoundClosure(hs, root) <= ids
    ensures forall id :: id in BoundClosure(hs, root) && id != root ==>
              BoundChild(hs, id) && hs[id].parent.value in BoundClosure(hs, root)
  {
    assert BoundIn(hs, root, root, 0);
    var closure := BoundClosure(hs, root);
    forall c | BoundChild(hs, c) && hs[c].parent.value in closure
      ensures c in closure
    {
      BoundStep(hs, root, c);
    }
    forall id | id in closure && id != root
      ensures BoundChild(hs, id) && hs[id].parent.value in closure
    {
      var n: nat :| BoundIn(hs, root, id, n);
      assert BoundIn(hs, root, hs[id].parent.value, n - 1);
    }
    forall ids: set<nat> | root in ids && ClosedUnderBound(hs, ids)
      ensures closure <= ids
    {
      forall id | id in closure
        ensures id in ids
      {
        var n: nat :| BoundIn(hs, root, id, n);
        BoundInSet(hs, root, id, n, ids);
      }
    }
  }

  lemma ClosureActive(hs: Rows, root: nat)
    requires root in hs && hs[root].state.Active?
    ensures forall id :: id in BoundClosure(hs, root) ==> id in hs && hs[id].state.Active?
  {
    ClosureExact(hs, root);
  }

  // ----- derived keys -----

  lemma {:induction false} DecimalInjective(a: nat, b: nat)
    requires Decimal(a) == Decimal(b)
    ensures a == b
  {
    DecimalLength(a);
    DecimalLength(b);
    if a >= 10 {
      assert b >= 10;
      var x, y := Decimal(a), Decimal(b);
      assert x[|x| - 1] == y[|y| - 1];
      assert x[..|x| - 1] == Decimal(a / 10) && y[..|y| - 1] == Decimal(b / 10);
      DecimalInjective(a / 10, b / 10);
    }
  }

  lemma {:induction false} DecimalLength(n: nat)
    ensures |Decimal(n)| >= 1 && (n >= 10 <==> |Decimal(n)| >= 2)
  {
    if n >= 10 {
      DecimalLength(n / 10);
    }
  }

  lemma KeyForInjective(key: string, root: nat, a: nat, b: nat)
    requires KeyFor(key, root, a) == KeyFor(key, root, b)
    ensures a == b
  {
    var mark := key + ":bound:";
    if a == root || b == root {
      assert |key + ":bound:" + Decimal(a)| > |key|;
      assert |key + ":bound:" + Decimal(b)| > |key|;
    } else {
      assert (mark + Decimal(a))[|mark|..] == Decimal(a);
      assert (mark + Decimal(b))[|mark|..] == Decimal(b);
      DecimalInjective(a, b);
    }
  }

  // ----- a retirement request preserves the invariant -----

  lemma RetireKeepsRows(s: State, root: nat, key: string, now: Timestamp)
    requires RowsOk(s) && root in s.holdings && s.holdings[root].state.Active?
    ensures var ids := BoundClosure(s.holdings, root);
            RowsOk(s.(holdings := RetireRows(s.holdings, ids), cleanups := RetireTasks(s, ids, root, key, now)))
  {
    var ids := BoundClosure(s.holdings, root);
    var t := s.(holdings := RetireRows(s.holdings, ids), cleanups := RetireTasks(s, ids, root, key, now));
    ClosureActive(s.holdings, root);
    forall id | id in t.holdings
      ensures RowOk(t, id)
    {
      assert RowOk(s, id);
    }
  }

  lemma RetireKeepsTasks(s: State, root: nat, key: string, now: Timestamp)
    requires RowsOk(s) && RetirementsOk(s) && TasksOk(s) && root in s.holdings && s.holdings[root].state.Active?
    ensures var ids := BoundClosure(s.holdings, root);
            var t := s.(holdings := RetireRows(s.holdings, ids), cleanups := RetireTasks(s, ids, root, key, now));
            RetirementsOk(t) && TasksOk(t)
  {
    var hs := s.holdings;
    var ids := BoundClosure(hs, root);
    var t := s.(holdings := RetireRows(hs, ids), cleanups := RetireTasks(s, ids, root, key, now));
    ClosureExact(hs, root);
    ClosureActive(hs, root);
    forall id | id in t.holdings
      ensures RetirementOk(t, id)
    {
      assert RowOk(s, id) && RetirementOk(s, id);
      if hs[id].state.Retiring? {
        assert TaskOk(s, hs[id].state.task);
      }
      if BoundChild(hs, id) {
        assert hs[id].parent.value in ids ==> id in ids;
      }
    }
    forall id | id in t.cleanups
      ensures TaskOk(t, id)
    {
      if id in ids {
        assert RowOk(s, id);
      } else {
        assert TaskOk(s, id);
      }
    }
  }

  lemma RetireKeepsKeys(s: State, root: nat, key: string, now: Timestamp)
    requires KeysUnique(s.cleanups) && root in s.holdings
    requires forall id :: id in BoundClosure(s.holdings, root) ==> !KeyTaken(s, KeyFor(key, root, id))
    ensures KeysUnique(RetireTasks(s, BoundClosure(s.holdings, root), root, key, now))
  {
    var ids := BoundClosure(s.holdings, root);
    var tasks := RetireTasks(s, ids, root, key, now);
    forall a: nat, b: nat
      ensures !SharedKey(tasks, a, b)
    {
      assert !SharedKey(s.cleanups, a, b);
      if a in ids && b in ids && KeyFor(key, root, a) == KeyFor(key, root, b) {
        KeyForInjective(key, root, a, b);
      }
    }
  }

  lemma RequestRetirementPreserves(s: State, handle: Handle, key: string, now: Timestamp)
    requires Valid(s)
    ensures var t := RequestRetirement(s, handle, key, now).state; Valid(t) && Evolves(s, t)
  {
    var t := RequestRetirement(s, handle, key, now).state;
    if t != s {
      var ids := BoundClosure(s.holdings, handle.id);
      ClosureActive(s.holdings, handle.id);
      RetireKeepsRows(s, handle.id, key, now);
      RetireKeepsTasks(s, handle.id, key, now);
      RetireKeepsKeys(s, handle.id, key, now);
      assert RowsForward(s.holdings, t.holdings) by {
        forall id | id in s.holdings
          ensures RowEvolves(s.holdings[id], t.holdings[id])
        {
        }
      }
      ForwardKeepsStructure(s, t);
      forall id | id in s.cleanups
        ensures id in t.cleanups && TaskEvolves(s.cleanups[id], t.cleanups[id])
      {
        assert TaskOk(s, id);
      }
    }
  }

  // ----- due holdings: the least fixpoint of expiry and parent-bound inheritance -----

  predicate DueNow(h: Holding, now: Timestamp) {
    h.state.Occupies() && (!h.state.Active? || (h.lease.Until? && h.lease.deadline <= now))
  }

  predicate DueIn(hs: Rows, now: Timestamp, id: nat, n: nat)
    decreases n
  {
    && id in hs
    && (DueNow(hs[id], now) || (n > 0 && BoundChild(hs, id) && DueIn(hs, now, hs[id].parent.value, n - 1)))
  }

  ghost predicate Due(hs: Rows, now: Timestamp, id: nat) {
    exists n: nat :: DueIn(hs, now, id, n)
  }

  // What a sweep asks to retire.
  ghost function DueActive(hs: Rows, now: Timestamp): set<nat> {
    set id | id in hs && hs[id].state.Active? && Due(hs, now, id)
  }

  ghost predicate ClosedUnderDue(hs: Rows, now: Timestamp, ids: set<nat>) {
    && (forall id {:trigger DueNow(hs[id], now)} :: id in hs && DueNow(hs[id], now) ==> id in ids)
    && ClosedUnderBound(hs, ids)
  }

  lemma {:induction false} DueInSet(hs: Rows, now: Timestamp, id: nat, n: nat, ids: set<nat>)
    requires DueIn(hs, now, id, n) && ClosedUnderDue(hs, now, ids)
    ensures id in ids
    decreases n
  {
    if !DueNow(hs[id], now) {
      DueInSet(hs, now, hs[id].parent.value, n - 1, ids);
    }
  }

  lemma DueStep(hs: Rows, now: Timestamp, id: nat)
    requires id in hs
    ensures DueNow(hs[id], now) ==> Due(hs, now, id)
    ensures BoundChild(hs, id) && Due(hs, now, hs[id].parent.value) ==> Due(hs, now, id)
  {
    if DueNow(hs[id], now) {
      assert DueIn(hs, now, id, 0);
    }
    if BoundChild(hs, id) && Due(hs, now, hs[id].parent.value) {
      var n: nat :| DueIn(hs, now, hs[id].parent.value, n);
      assert DueIn(hs, now, id, n + 1);
    }
  }

  lemma DueLeast(hs: Rows, now: Timestamp, ids: set<nat>)
    requires ClosedUnderDue(hs, now, ids)
    ensures forall id :: id in hs && Due(hs, now, id) ==> id in ids
  {
    forall id | id in hs && Due(hs, now, id)
      ensures id in ids
    {
      var n: nat :| DueIn(hs, now, id, n);
      DueInSet(hs, now, id, n, ids);
    }
  }

  lemma {:induction false} ActiveDueHasExpiredAncestor(s: State, now: Timestamp, id: nat, n: nat) returns (a: nat)
    requires RetirementsOk(s) && RowsOk(s)
    requires DueIn(s.holdings, now, id, n) && s.holdings[id].state.Active?
    ensures a in s.holdings && s.holdings[a].state.Active?
    ensures s.holdings[a].lease.Until? && s.holdings[a].lease.deadline <= now
    decreases n
  {
    if DueNow(s.holdings[id], now) {
      a := id;
    } else {
      assert RetirementOk(s, id) && RowOk(s, id);
      a := ActiveDueHasExpiredAncestor(s, now, s.holdings[id].parent.value, n - 1);
    }
  }

  // With no active expired lease left, nothing active is due.
  lemma NothingDue(s: State, now: Timestamp)
    requires RowsOk(s) && RetirementsOk(s)
    requires forall id :: id in s.holdings && s.holdings[id].state.Active? ==> !DueNow(s.holdings[id], now)
    ensures DueActive(s.holdings, now) == {}
  {
    forall id | id in s.holdings && s.holdings[id].state.Active?
      ensures !Due(s.holdings, now, id)
    {
      forall n: nat
        ensures !DueIn(s.holdings, now, id, n)
      {
        if DueIn(s.holdings, now, id, n) {
          var a := ActiveDueHasExpiredAncestor(s, now, id, n);
        }
      }
    }
  }

  // ----- batches of requests, as the kernel issues them -----

  function CleanupKey(realm: string, id: nat): string {
    "cleanup:" + realm + ":" + Decimal(id)
  }

  // Keys of the kernel tell realms and holdings apart.
  lemma CleanupKeyInjective(realm: string, id: nat, other: string, num: nat)
    requires CleanupKey(realm, id) == CleanupKey(other, num)
    ensures realm == other && id == num
  {
    var key := CleanupKey(realm, id);
    var x, y := "cleanup:" + realm + ":", "cleanup:" + other + ":";
    assert key == x + Decimal(id) && key == y + Decimal(num);
    assert key[|x|..] == Decimal(id) && key[|y|..] == Decimal(num);
    EndsInIdUnique(key, id, num);
    assert x == key[..|x|] && y == key[..|y|];
    assert x[8..8 + |realm|] == realm && y[8..8 + |other|] == other;
  }

  // Requests in order; the first refusal stops the batch.
  ghost function RequestMany(s: State, handles: seq<Handle>, realm: string, now: Timestamp): Step<()>
    decreases |handles|
  {
    if handles == [] then Step(s, Ok(()))
    else
      var first := RequestRetirement(s, handles[0], CleanupKey(realm, handles[0].id), now);
      match first.result
      case Err(e) => Step(s, Err(e))
      case Ok(_) => RequestMany(first.state, handles[1..], realm, now)
  }

  // Every key ends in ":" and the decimal id of the holding it discharges.
  predicate EndsInId(key: string, id: nat) {
    |key| > |Decimal(id)| && key[|key| - |Decimal(id)|..] == Decimal(id) && key[|key| - |Decimal(id)| - 1] == ':'
  }

  ghost predicate KernelKeys(s: State) {
    forall id {:trigger s.cleanups[id]} :: id in s.cleanups ==> EndsInId(s.cleanups[id].key, id)
  }

  lemma {:induction false} DecimalHasNoColon(n: nat)
    ensures forall i :: 0 <= i < |Decimal(n)| ==> Decimal(n)[i] != ':'
  {
    if n >= 10 {
      DecimalHasNoColon(n / 10);
    }
  }

  lemma EndsInIdUnique(key: string, a: nat, b: nat)
    requires EndsInId(key, a) && EndsInId(key, b)
    ensures a == b
  {
    DecimalHasNoColon(a);
    DecimalHasNoColon(b);
    var x, y := |Decimal(a)|, |Decimal(b)|;
    assert forall i :: |key| - x <= i < |key| ==> key[i] == Decimal(a)[i - (|key| - x)];
    assert forall i :: |key| - y <= i < |key| ==> key[i] == Decimal(b)[i - (|key| - y)];
    assert x == y;
    DecimalInjective(a, b);
  }

  lemma KernelKeyShape(realm: string, root: nat, id: nat)
    ensures EndsInId(KeyFor(CleanupKey(realm, root), root, id), id)
  {
    var key := KeyFor(CleanupKey(realm, root), root, id);
    var front := if id == root then "cleanup:" + realm + ":" else CleanupKey(realm, root) + ":bound:";
    assert key == front + Decimal(id);
    assert key[|front|..] == Decimal(id);
  }

  // With keys of the kernel's shape a request for an active holding is never refused.
  lemma KernelRequestAccepted(s: State, handle: Handle, realm: string, now: Timestamp)
    requires Valid(s) && KernelKeys(s) && Resolve(s, handle).Ok?
    ensures RequestRetirement(s, handle, CleanupKey(realm, handle.id), now).result.Ok?
    ensures KernelKeys(RequestRetirement(s, handle, CleanupKey(realm, handle.id), now).state)
  {
    var key := CleanupKey(realm, handle.id);
    var t := RequestRetirement(s, handle, key, now).state;
    if s.holdings[handle.id].state.Active? {
      var ids := BoundClosure(s.holdings, handle.id);
      ClosureActive(s.holdings, handle.id);
      forall id | id in ids
        ensures EndsInId(KeyFor(key, handle.id, id), id)
        ensures !KeyTaken(s, KeyFor(key, handle.id, id))
      {
        KernelKeyShape(realm, handle.id, id);
        forall k | k in s.cleanups && s.cleanups[k].key == KeyFor(key, handle.id, id)
          ensures false
        {
          EndsInIdUnique(s.cleanups[k].key, k, id);
          ActiveHasNoTask(s, id);
        }
      }
    }
  }

  // Some active rows went to Retiring; nothing else changed.
  predicate RetiredSome(hs: Rows, ks: Rows) {
    && ks.Keys == hs.Keys
    && forall id {:trigger ks[id]} :: id in ks ==>
         ks[id] == hs[id] || (hs[id].state.Active? && ks[id] == hs[id].(state := Retiring(id)))
  }

  lemma RetireRowsRetiresSome(hs: Rows, root: nat)
    requires root in hs && hs[root].state.Active?
    ensures RetiredSome(hs, RetireRows(hs, BoundClosure(hs, root)))
  {
    ClosureActive(hs, root);
  }

  // Existing tasks are untouched; new ones have not been tried.
  predicate TasksAdded(a: map<nat, CleanupRecord>, b: map<nat, CleanupRecord>) {
    && a.Keys <= b.Keys
    && forall id {:trigger b[id]} :: id in b ==>
         if id in a then b[id] == a[id] else b[id].attempts == 0 && !b[id].state.Running?
  }

  // What a successful batch leaves behind.
  ghost predicate RequestedAll(s: State, t: State, handles: seq<Handle>) {
    && Valid(t) && Evolves(s, t)
    && t.holdings.Keys == s.holdings.Keys && t.nextId == s.nextId
    && TasksAdded(s.cleanups, t.cleanups)
    && t.classes == s.classes && t.pools == s.pools
    && RetiredSome(s.holdings, t.holdings)
    && (forall i :: 0 <= i < |handles| ==> handles[i].id in t.holdings && !t.holdings[handles[i].id].state.Active?)
  }

  lemma RequestOneEffect(s: State, handle: Handle, key: string, now: Timestamp)
    requires Valid(s) && RequestRetirement(s, handle, key, now).result.Ok?
    ensures RequestedAll(s, RequestRetirement(s, handle, key, now).state, [handle])
  {
    RequestRetirementPreserves(s, handle, key, now);
    assert [handle][0] == handle;
    if s.holdings[handle.id].state.Active? {
      RetireRowsRetiresSome(s.holdings, handle.id);
      assert BoundIn(s.holdings, handle.id, handle.id, 0);
      NewTasksOnly(s, handle.id, key, now);
    }
  }

  lemma NewTasksOnly(s: State, root: nat, key: string, now: Timestamp)
    requires Valid(s) && root in s.holdings && s.holdings[root].state.Active?
    ensures TasksAdded(s.cleanups, RetireTasks(s, BoundClosure(s.holdings, root), root, key, now))
  {
    var ids := BoundClosure(s.holdings, root);
    ClosureActive(s.holdings, root);
    forall id | id in ids
      ensures id !in s.cleanups
    {
      ActiveHasNoTask(s, id);
    }
  }

  lemma {:induction false} RequestManyEffect(s: State, handles: seq<Handle>, realm: string, now: Timestamp)
    requires Valid(s) && RequestMany(s, handles, realm, now).result.Ok?
    ensures RequestedAll(s, RequestMany(s, handles, realm, now).state, handles)
    decreases |handles|
  {
    if handles == [] {
    } else {
      var key := CleanupKey(realm, handles[0].id);
      var mid := RequestRetirement(s, handles[0], key, now).state;
      RequestOneEffect(s, handles[0], key, now);
      RequestManyEffect(mid, handles[1..], realm, now);
      var t := RequestMany(s, handles, realm, now).state;
      EvolvesTransitive(s, mid, t);
      assert [handles[0]][0] == handles[0];
      forall i | 0 <= i < |handles|
        ensures handles[i].id in t.holdings && !t.holdings[handles[i].id].state.Active?
      {
        if i > 0 {
          assert handles[i] == handles[1..][i - 1];
        }
      }
    }
  }

  lemma {:induction false} RequestManyAccepted(s: State, handles: seq<Handle>, realm: string, now: Timestamp)
    requires Valid(s) && KernelKeys(s)
    requires forall i :: 0 <= i < |handles| ==> Resolve(s, handles[i]).Ok?
    ensures RequestMany(s, handles, realm, now).result.Ok?
    ensures KernelKeys(RequestMany(s, handles, realm, now).state)
    decreases |handles|
  {
    if handles != [] {
      KernelRequestAccepted(s, handles[0], realm, now);
      var key := CleanupKey(realm, handles[0].id);
      var mid := RequestRetirement(s, handles[0], key, now).state;
      RequestOneEffect(s, handles[0], key, now);
      forall i | 0 <= i < |handles[1..]|
        ensures Resolve(mid, handles[1..][i]).Ok?
      {
        assert handles[1..][i] == handles[i + 1];
        assert Resolve(s, handles[i + 1]).Ok?;
      }
      RequestManyAccepted(mid, handles[1..], realm, now);
    }
  }

  // After requesting everything a sweep found due, nothing is due at that time.
  lemma SweepLeavesNothingDue(s: State, handles: seq<Handle>, realm: string, now: Timestamp)
    requires Valid(s) && RequestMany(s, handles, realm, now).result.Ok?
    requires forall id :: id in DueActive(s.holdings, now) ==> exists i :: 0 <= i < |handles| && handles[i].id == id
    ensures DueActive(RequestMany(s, handles, realm, now).state.holdings, now) == {}
  {
    var t := RequestMany(s, handles, realm, now).state;
    RequestManyEffect(s, handles, realm, now);
    forall id | id in t.holdings && t.holdings[id].state.Active?
      ensures !DueNow(t.holdings[id], now)
    {
      DueStep(s.holdings, now, id);
      assert t.holdings[id] == s.holdings[id];
      assert id !in DueActive(s.holdings, now);
    }
    NothingDue(t, now);
  }
}
