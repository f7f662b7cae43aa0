// The executable invariant checker, run on arbitrary reconstructed data.

module LedgerCheck {
  import opened Prelude
  import opened Algebra
  import opened Auth
  import opened LedgerTypes
  import opened LedgerState
  import opened LedgerRows
  import opened LedgerObject
  import Runs = LedgerRuns

  // ----- first-match lookup in a vector that may repeat ids -----

  function FirstRows(vec: seq<Holding>): Rows {
    if vec == [] then map[]
    else
      var rest := FirstRows(vec[..|vec| - 1]);
      var h := vec[|vec| - 1];
      if h.id in rest then rest else rest[h.id := h]
  }

  lemma {:induction false} FirstRowsFacts(vec: seq<Holding>)
    ensures forall id :: id in FirstRows(vec) ==> FirstRows(vec)[id].id == id && FirstRows(vec)[id] in vec
    ensures forall i :: 0 <= i < |vec| ==> vec[i].id in FirstRows(vec)
  {
    if vec != [] {
      var n := |vec| - 1;
      FirstRowsFacts(vec[..n]);
      assert vec == vec[..n] + [vec[n]];
    }
  }

  lemma {:induction false} FirstRowsUnique(vec: seq<Holding>)
    requires UniqueIds(vec)
    ensures FirstRows(vec) == RowsOf(vec)
  {
    if vec == [] {
    } else {
      var n := |vec| - 1;
      UniqueFront(vec);
      FirstRowsUnique(vec[..n]);
      RowsAppend(vec[..n], vec[n]);
      assert vec == vec[..n] + [vec[n]];
    }
  }

  lemma {:induction false} FirstRowsAt(vec: seq<Holding>, i: nat)
    requires i < |vec| && forall j :: 0 <= j < i ==> vec[j].id != vec[i].id
    ensures vec[i].id in FirstRows(vec) && FirstRows(vec)[vec[i].id] == vec[i]
    decreases |vec|
  {
    var n := |vec| - 1;
    if i < n {
      FirstRowsAt(vec[..n], i);
    } else {
      FirstRowsFacts(vec[..n]);
      forall h | h in vec[..n]
        ensures h.id != vec[i].id
      {
      }
    }
  }

  method Lookup(l: Ledger, id: nat) returns (h: Option<Holding>)
    ensures var hs := FirstRows(l.holdings); h == if id in hs then Some(hs[id]) else None
  {
    for k := 0 to |l.holdings|
      invariant forall j :: 0 <= j < k ==> l.holdings[j].id != id
    {
      if l.holdings[k].id == id {
        FirstRowsAt(l.holdings, k);
        return Some(l.holdings[k]);
      }
    }
    FirstRowsFacts(l.holdings);
    return None;
  }

  // ----- the ancestor walk -----

  // Consecutive entries are parent links.
  ghost predicate Trail(hs: Rows, trail: seq<nat>) {
    && trail != []
    && (forall k {:trigger trail[k]} :: 0 <= k < |trail| ==> trail[k] in hs)
    && (forall k :: 0 <= k < |trail| - 1 ==> hs[trail[k]].parent == Some(trail[k + 1]))
  }

  lemma {:induction false} TrailDepth(hs: Rows, trail: seq<nat>, d: nat, k: nat)
    requires Trail(hs, trail) && AtDepth(hs, trail[0], d) && k < |trail|
    ensures k <= d && AtDepth(hs, trail[k], d - k)
    decreases k
  {
    if k > 0 {
      TrailDepth(hs, trail, d, k - 1);
      assert hs[trail[k - 1]].parent == Some(trail[k]);
    }
  }

  // A walk that meets an earlier id, or leaves the table, starts at a row with no root.
  lemma CycleNotRooted(hs: Rows, trail: seq<nat>, j: nat)
    requires Trail(hs, trail) && j < |trail| && hs[trail[|trail| - 1]].parent == Some(trail[j])
    ensures !Rooted(hs, trail[0])
  {
    forall n: nat
      ensures !RootedIn(hs, trail[0], n)
    {
      if RootedIn(hs, trail[0], n) {
        var d := RootedHasDepth(hs, trail[0], n);
        NoDepthOnCycle(hs, trail, j, d);
      }
    }
  }

  lemma NoDepthOnCycle(hs: Rows, trail: seq<nat>, j: nat, d: nat)
    requires Trail(hs, trail) && j < |trail| && hs[trail[|trail| - 1]].parent == Some(trail[j])
    ensures !AtDepth(hs, trail[0], d)
  {
    var last := |trail| - 1;
    if AtDepth(hs, trail[0], d) {
      TrailDepth(hs, trail, d, j);
      TrailDepth(hs, trail, d, last);
      DepthUnique(hs, trail[j], d - j, d - last - 1);
    }
  }

  lemma DanglingNotRooted(hs: Rows, trail: seq<nat>)
    requires Trail(hs, trail)
    requires hs[trail[|trail| - 1]].parent.Some? && hs[trail[|trail| - 1]].parent.value !in hs
    ensures !Rooted(hs, trail[0])
  {
    forall n: nat
      ensures !RootedIn(hs, trail[0], n)
    {
      if RootedIn(hs, trail[0], n) {
        var d := RootedHasDepth(hs, trail[0], n);
        TrailDepth(hs, trail, d, |trail| - 1);
      }
    }
  }

  lemma {:induction false} TrailRooted(hs: Rows, trail: seq<nat>, k: nat)
    requires Trail(hs, trail) && hs[trail[|trail| - 1]].parent.None? && k < |trail|
    ensures RootedIn(hs, trail[k], |trail| - 1 - k)
    decreases |trail| - k
  {
    if k < |trail| - 1 {
      TrailRooted(hs, trail, k + 1);
    }
  }

  // Every proper ancestor of an occupying row occupies.
  ghost predicate AncestorsOccupy(hs: Rows, id: nat) {
    forall a {:trigger Below(hs, id, a)} :: id in hs && hs[id].state.Occupies() && Below(hs, id, a) ==> Occupying(hs, a)
  }

  lemma {:induction false} TrailBelow(hs: Rows, trail: seq<nat>, k: nat)
    requires Trail(hs, trail) && k < |trail|
    ensures Below(hs, trail[0], trail[k])
  {
    TrailBelowIn(hs, trail, 0, k);
  }

  lemma {:induction false} TrailBelowIn(hs: Rows, trail: seq<nat>, i: nat, k: nat)
    requires Trail(hs, trail) && i <= k < |trail|
    ensures BelowIn(hs, trail[i], trail[k], k - i)
    decreases k - i
  {
    if i < k {
      TrailBelowIn(hs, trail, i + 1, k);
    }
  }

  // A walk that ended at a root has seen every ancestor.
  lemma {:induction false} TrailComplete(hs: Rows, trail: seq<nat>, i: nat, a: nat, n: nat)
    requires Trail(hs, trail) && hs[trail[|trail| - 1]].parent.None? && i < |trail| && BelowIn(hs, trail[i], a, n)
    ensures a in trail
    decreases n
  {
    if n > 0 {
      TrailComplete(hs, trail, i + 1, a, n - 1);
    }
  }

  // The walk so far: the trail starts at `id`, ends at a row whose parent is next.
  ghost predicate Walking(hs: Rows, id: nat, trail: seq<nat>, seen: set<nat>, parent: Option<nat>) {
    && Trail(hs, trail) && trail[0] == id
    && parent == hs[trail[|trail| - 1]].parent
    && seen <= hs.Keys
    && (forall x :: x in seen <==> x in trail)
    && (hs[id].state.Occupies() ==> forall k {:trigger trail[k]} :: 0 <= k < |trail| ==> Occupying(hs, trail[k]))
  }

  lemma WalkStarts(hs: Rows, id: nat)
    requires id in hs
    ensures Walking(hs, id, [id], {id}, hs[id].parent)
  {
  }

  lemma WalkAdvances(hs: Rows, id: nat, trail: seq<nat>, seen: set<nat>, p: nat)
    requires Walking(hs, id, trail, seen, Some(p)) && p in hs
    requires hs[id].state.Occupies() ==> hs[p].state.Occupies()
    ensures Walking(hs, id, trail + [p], seen + {p}, hs[p].parent)
  {
  }

  lemma WalkMeetsRetired(hs: Rows, id: nat, trail: seq<nat>, seen: set<nat>, p: nat)
    requires Walking(hs, id, trail, seen, Some(p)) && p in hs
    requires hs[id].state.Occupies() && !hs[p].state.Occupies()
    ensures id in hs && !AncestorsOccupy(hs, id)
  {
    var longer := trail + [p];
    assert Trail(hs, longer);
    TrailBelow(hs, longer, |trail|);
  }

  lemma WalkFails(hs: Rows, id: nat, trail: seq<nat>, seen: set<nat>, p: nat)
    requires Walking(hs, id, trail, seen, Some(p)) && (p in seen || p !in hs)
    ensures !Rooted(hs, id)
  {
    if p in hs {
      var j :| 0 <= j < |trail| && trail[j] == p;
      CycleNotRooted(hs, trail, j);
    } else {
      DanglingNotRooted(hs, trail);
    }
  }

  lemma WalkEnds(hs: Rows, id: nat, trail: seq<nat>, seen: set<nat>)
    requires Walking(hs, id, trail, seen, None)
    ensures Rooted(hs, id) && AncestorsOccupy(hs, id)
  {
    TrailRooted(hs, trail, 0);
    forall a | id in hs && hs[id].state.Occupies() && Below(hs, id, a)
      ensures Occupying(hs, a)
    {
      var n: nat :| BelowIn(hs, id, a, n);
      TrailComplete(hs, trail, 0, a, n);
    }
  }

  method WalkAncestors(l: Ledger, h: Holding) returns (ok: bool)
    requires var hs := FirstRows(l.holdings); h.id in hs && hs[h.id] == h
    ensures var hs := FirstRows(l.holdings); ok <==> Rooted(hs, h.id) && AncestorsOccupy(hs, h.id)
  {
    hide Walking, Rooted, AncestorsOccupy, FirstRows;
    ghost var hs := FirstRows(l.holdings);
    var ancestors := {h.id};
    var parent := h.parent;
    ghost var trail := [h.id];
    WalkStarts(hs, h.id);
    while parent.Some?
      invariant Walking(hs, h.id, trail, ancestors, parent)
      decreases |hs.Keys - ancestors|
    {
      var id := parent.value;
      if id in ancestors {
        WalkFails(hs, h.id, trail, ancestors, id);
        return false;
      }
      var ph := Lookup(l, id);
      if ph.None? {
        WalkFails(hs, h.id, trail, ancestors, id);
        return false;
      }
      if h.state.Occupies() && !ph.value.state.Occupies() {
        WalkMeetsRetired(hs, h.id, trail, ancestors, id);
        return false;
      }
      WalkAdvances(hs, h.id, trail, ancestors, id);
      FewerLeft(hs.Keys, ancestors, id);
      ancestors := ancestors + {id};
      trail := trail + [id];
      parent := ph.value.parent;
    }
    WalkEnds(hs, h.id, trail, ancestors);
    return true;
  }

  lemma FewerLeft<T>(all: set<T>, seen: set<T>, x: T)
    requires x in all && x !in seen
    ensures |all - (seen + {x})| < |all - seen|
  {
    assert all - (seen + {x}) == (all - seen) - {x};
  }

  // ----- rows -----

  // The checks of one row that look at no other row.
  predicate LocalOk(classes: map<Name, ClassDecl>, pools: map<ResourceKey, Frag>, h: Holding) {
    && h.generation != ""
    && h.classId in classes
    && h.frag.Tag() == classes[h.classId].algebra
    && h.frag.Valid()
    && (h.lease.ParentBound? ==> h.parent.Some?)
    && (h.state.Occupies() ==> h.Key() in pools)
  }

  method CheckLocal(l: Ledger, h: Holding) returns (r: Answer<()>)
    ensures r.Ok? <==> LocalOk(l.classes, l.capacities, h)
  {
    if h.generation == "" {
      return Err(InvalidGeneration);
    }
    if h.classId !in l.classes {
      return Err(UnknownClass);
    }
    if h.frag.Tag() != l.classes[h.classId].algebra {
      return Err(AlgebraMismatch);
    }
    if !h.frag.Valid() {
      return Err(InvalidValue);
    }
    if h.lease.ParentBound? && h.parent.None? {
      return Err(InvalidLease);
    }
    if h.state.Occupies() && h.Key() !in l.capacities {
      return Err(UnknownPool);
    }
    return Ok(());
  }

  ghost predicate RowChecks(l: Ledger, h: Holding)
    reads l
  {
    && LocalOk(l.classes, l.capacities, h)
    && Rooted(FirstRows(l.holdings), h.id) && AncestorsOccupy(FirstRows(l.holdings), h.id)
  }

  // On distinct ids the row checks are the declarative clauses.
  lemma RowChecksExact(l: Ledger)
    requires UniqueIds(l.holdings)
    ensures (forall i :: 0 <= i < |l.holdings| ==> RowChecks(l, l.holdings[i])) <==>
            RowsOk(l.View()) && Forest(l.View().holdings)
  {
    var s := l.View();
    var hs := s.holdings;
    FirstRowsUnique(l.holdings);
    if forall i :: 0 <= i < |l.holdings| ==> RowChecks(l, l.holdings[i]) {
      forall id | id in hs
        ensures RowOk(s, id) && Rooted(hs, id)
      {
        var i :| 0 <= i < |l.holdings| && l.holdings[i].id == id;
        assert RowChecks(l, l.holdings[i]);
        RootedParent(hs, id);
      }
    }
    if RowsOk(s) && Forest(hs) {
      forall i | 0 <= i < |l.holdings|
        ensures RowChecks(l, l.holdings[i])
      {
        var id := l.holdings[i].id;
        assert RowOk(s, id) && Rooted(hs, id);
        forall a | Occupying(hs, id) && Below(hs, id, a)
          ensures Occupying(hs, a)
        {
          var n: nat :| BelowIn(hs, id, a, n);
          Runs.OccupyingAncestors(s, id, a, n);
        }
      }
    }
  }

  lemma RootedParent(hs: Rows, id: nat)
    requires Rooted(hs, id) && AncestorsOccupy(hs, id)
    ensures hs[id].parent.Some? ==> hs[id].parent.value in hs
    ensures hs[id].parent.Some? && hs[id].state.Occupies() ==> Occupying(hs, hs[id].parent.value)
  {
    var n: nat :| RootedIn(hs, id, n);
    if hs[id].parent.Some? {
      var p := hs[id].parent.value;
      assert RootedIn(hs, p, n - 1);
      assert BelowIn(hs, p, p, 0);
      assert BelowIn(hs, id, p, 1);
      assert Below(hs, id, p);
    }
  }

  // Rows before `k` have distinct ids, collected in `ids`, and pass their checks.
  ghost predicate Scanned(l: Ledger, ids: set<nat>, k: nat)
    reads l
  {
    && k <= |l.holdings|
    && (forall j :: 0 <= j < k ==> l.holdings[j].id in ids)
    && (forall id :: id in ids ==> exists j :: 0 <= j < k && l.holdings[j].id == id)
    && (forall i: nat, j: nat :: j < k && i < j ==> !SameId(l.holdings, i, j))
    && (forall j {:trigger l.holdings[j]} :: 0 <= j < k ==> RowChecks(l, l.holdings[j]))
  }

  lemma ScanStep(l: Ledger, ids: set<nat>, k: nat)
    requires Scanned(l, ids, k) && k < |l.holdings| && l.holdings[k].id !in ids && RowChecks(l, l.holdings[k])
    ensures Scanned(l, ids + {l.holdings[k].id}, k + 1)
  {
  }

  lemma ScanRepeats(l: Ledger, ids: set<nat>, k: nat)
    requires Scanned(l, ids, k) && k < |l.holdings| && l.holdings[k].id in ids
    ensures !UniqueIds(l.holdings)
  {
    var j: nat :| j < k && l.holdings[j].id == l.holdings[k].id;
    assert SameId(l.holdings, j, k);
  }

  lemma ScanFresh(l: Ledger, ids: set<nat>, k: nat)
    requires Scanned(l, ids, k) && k < |l.holdings| && l.holdings[k].id !in ids
    ensures l.holdings[k].id in FirstRows(l.holdings) && FirstRows(l.holdings)[l.holdings[k].id] == l.holdings[k]
  {
    FirstRowsAt(l.holdings, k);
  }

  ghost predicate RowsPass(l: Ledger)
    reads l
  {
    UniqueIds(l.holdings) && RowsOk(l.View()) && Forest(l.View().holdings)
  }

  lemma RowsPassExact(l: Ledger)
    ensures RowsPass(l) <==> UniqueIds(l.holdings) && forall i {:trigger l.holdings[i]} :: 0 <= i < |l.holdings| ==>
              RowChecks(l, l.holdings[i])
  {
    if UniqueIds(l.holdings) {
      RowChecksExact(l);
    }
  }

  method CheckRows(l: Ledger) returns (r: Answer<()>)
    ensures r.Ok? <==> UniqueIds(l.holdings) && RowsOk(l.View()) && Forest(l.View().holdings)
  {
    hide FirstRows, LocalOk, Rooted, AncestorsOccupy;
    RowsPassExact(l);
    var ids: set<nat> := {};
    for k := 0 to |l.holdings|
      invariant Scanned(l, ids, k)
    {
      var h := l.holdings[k];
      if h.id in ids {
        ScanRepeats(l, ids, k);
        return Err(DuplicateId);
      }
      ScanFresh(l, ids, k);
      var local := CheckLocal(l, h);
      if local.Err? {
        return Err(local.error);
      }
      var walked := WalkAncestors(l, h);
      if !walked {
        return Err(InvalidGraph);
      }
      ScanStep(l, ids, k);
      ids := ids + {h.id};
    }
    return Ok(());
  }
}
