// Retirement requests, cleanup attempts and closures on the ledger object.

module LedgerCleanup {
  import opened Prelude
  import opened Algebra
  import opened LedgerTypes
  import opened LedgerState
  import opened LedgerRows
  import opened LedgerObject
  import Ops = LedgerOps
  import Inv = LedgerInvariant
  import Ret = Retirement

  // ----- finite-set bookkeeping -----

  ghost predicate Distinct<T>(s: seq<T>) {
    forall i, j :: 0 <= i < j < |s| ==> s[i] != s[j]
  }

  lemma {:induction false} DistinctBounded<T>(s: seq<T>, all: set<T>)
    requires Distinct(s) && forall i :: 0 <= i < |s| ==> s[i] in all
    ensures |s| <= |all|
    decreases |s|
  {
    if s != [] {
      var n := |s| - 1;
      forall i | 0 <= i < n
        ensures s[..n][i] in all - {s[n]}
      {
        assert s[i] != s[n];
      }
      DistinctBounded(s[..n], all - {s[n]});
    }
  }

  // ----- no holding is its own ancestor -----

  lemma {:induction false} BoundAddsDepth(hs: Rows, root: nat, id: nat, n: nat, d: nat)
    requires Ops.BoundIn(hs, root, id, n) && AtDepth(hs, root, d)
    ensures exists e :: e >= d && AtDepth(hs, id, e)
    decreases n
  {
    if id != root {
      BoundAddsDepth(hs, root, hs[id].parent.value, n - 1, d);
      var e :| e >= d && AtDepth(hs, hs[id].parent.value, e);
      assert AtDepth(hs, id, e + 1);
    } else {
      assert AtDepth(hs, id, d);
    }
  }

  lemma NoBoundCycle(hs: Rows, root: nat, p: nat)
    requires Forest(hs) && root in hs && Ops.Bound(hs, root, p)
    ensures hs[root].parent != Some(p)
  {
    assert Rooted(hs, root);
    var m: nat :| RootedIn(hs, root, m);
    var d := RootedHasDepth(hs, root, m);
    var n: nat :| Ops.BoundIn(hs, root, p, n);
    BoundAddsDepth(hs, root, p, n, d);
    var e :| e >= d && AtDepth(hs, p, e);
    if hs[root].parent == Some(p) {
      assert AtDepth(hs, root, e + 1);
      DepthUnique(hs, root, d, e + 1);
    }
  }

  // ----- the request worklist -----

  datatype Pick = Pick(handle: Handle, key: string)

  function IdsOf(picks: seq<Pick>): (r: set<nat>)
    ensures forall i :: 0 <= i < |picks| ==> picks[i].handle.id in r
    ensures forall id :: id in r ==> exists i :: 0 <= i < |picks| && picks[i].handle.id == id
  {
    set p | p in picks :: p.handle.id
  }

  // Entry `k` names a row of the closure and carries its derived key.
  ghost predicate PickOk(hs: Rows, root: nat, key: string, p: Pick) {
    && p.handle.id in hs
    && p.handle == hs[p.handle.id].Ref()
    && p.key == Ops.KeyFor(key, root, p.handle.id)
    && Ops.Bound(hs, root, p.handle.id)
  }

  ghost predicate IsPick(picks: seq<Pick>, id: nat) {
    exists k :: 0 <= k < |picks| && picks[k].handle.id == id
  }

  ghost predicate DistinctPicks(picks: seq<Pick>) {
    forall i, j :: 0 <= i < j < |picks| ==> picks[i].handle.id != picks[j].handle.id
  }

  // Entries before `done` have had their children appended.
  ghost predicate Worklist(hs: Rows, root: nat, key: string, picks: seq<Pick>, done: nat) {
    && done <= |picks|
    && |picks| > 0 && picks[0].handle.id == root
    && (forall k {:trigger picks[k]} :: 0 <= k < |picks| ==> PickOk(hs, root, key, picks[k]))
    && DistinctPicks(picks)
    && (forall k {:trigger picks[k]} :: 0 < k < |picks| ==>
          hs[picks[k].handle.id].parent.Some? && IsPick(picks[..done], hs[picks[k].handle.id].parent.value))
    && (forall c {:trigger Ops.BoundChild(hs, c)} ::
         Ops.BoundChild(hs, c) && IsPick(picks[..done], hs[c].parent.value) ==>
          IsPick(picks, c))
  }

  // `p` names an active parent-bound child of `parent`, with its derived key.
  predicate KidOk(hs: Rows, key: string, parent: nat, p: Pick) {
    && Ops.BoundChild(hs, p.handle.id)
    && hs[p.handle.id].parent == Some(parent)
    && p.handle == hs[p.handle.id].Ref()
    && p.key == key + ":bound:" + Ops.Decimal(p.handle.id)
  }

  // The rows appended for one entry: its active parent-bound children.
  ghost predicate KidsOf(hs: Rows, key: string, parent: nat, kids: seq<Pick>) {
    && (forall k {:trigger kids[k]} :: 0 <= k < |kids| ==> KidOk(hs, key, parent, kids[k]))
    && DistinctPicks(kids)
    && (forall c {:trigger Ops.BoundChild(hs, c)} :: Ops.BoundChild(hs, c) && hs[c].parent == Some(parent) ==>
         IsPick(kids, c))
  }

  // The same, for the rows before index `n` of the vector.
  ghost predicate KidsUpTo(hs: Rows, vec: seq<Holding>, key: string, parent: nat, kids: seq<Pick>, n: nat) {
    && n <= |vec|
    && (forall k {:trigger kids[k]} :: 0 <= k < |kids| ==>
          KidOk(hs, key, parent, kids[k]) && IdBefore(vec, n, kids[k].handle.id))
    && DistinctPicks(kids)
    && (forall j {:trigger vec[j]} :: 0 <= j < n && Ops.BoundChild(hs, vec[j].id) && vec[j].parent == Some(parent) ==>
          IsPick(kids, vec[j].id))
  }

  lemma KidsSkip(vec: seq<Holding>, key: string, parent: nat, kids: seq<Pick>, n: nat)
    requires UniqueIds(vec) && n < |vec| && KidsUpTo(RowsOf(vec), vec, key, parent, kids, n)
    requires !(Ops.BoundChild(RowsOf(vec), vec[n].id) && vec[n].parent == Some(parent))
    ensures KidsUpTo(RowsOf(vec), vec, key, parent, kids, n + 1)
  {
    forall k | 0 <= k < |kids|
      ensures IdBefore(vec, n + 1, kids[k].handle.id)
    {
      IdBeforeGrows(vec, n, kids[k].handle.id);
    }
  }

  lemma KidsAdd(vec: seq<Holding>, key: string, parent: nat, kids: seq<Pick>, n: nat, p: Pick)
    requires UniqueIds(vec) && n < |vec| && KidsUpTo(RowsOf(vec), vec, key, parent, kids, n)
    requires KidOk(RowsOf(vec), key, parent, p) && p.handle.id == vec[n].id
    ensures KidsUpTo(RowsOf(vec), vec, key, parent, kids + [p], n + 1)
  {
    var all := kids + [p];
    IdNotBefore(vec, n);
    forall k | 0 <= k < |all|
      ensures IdBefore(vec, n + 1, all[k].handle.id)
    {
      assert k < |kids| ==> all[k] == kids[k];
      IdBeforeGrows(vec, n, all[k].handle.id);
    }
    assert all[|kids|] == p;
    forall j | 0 <= j < n + 1 && Ops.BoundChild(RowsOf(vec), vec[j].id) && vec[j].parent == Some(parent)
      ensures IsPick(all, vec[j].id)
    {
      PickEmbeds(kids, [p], vec[j].id);
    }
  }

  lemma KidsDone(vec: seq<Holding>, key: string, parent: nat, kids: seq<Pick>)
    requires UniqueIds(vec) && KidsUpTo(RowsOf(vec), vec, key, parent, kids, |vec|)
    ensures KidsOf(RowsOf(vec), key, parent, kids)
  {
    var hs := RowsOf(vec);
    forall c | Ops.BoundChild(hs, c) && hs[c].parent == Some(parent)
      ensures IsPick(kids, c)
    {
      var j :| 0 <= j < |vec| && vec[j].id == c;
      assert hs[c] == vec[j];
    }
  }

  method BoundChildren(l: Ledger, key: string, parent: nat) returns (kids: seq<Pick>)
    requires UniqueIds(l.holdings)
    ensures KidsOf(RowsOf(l.holdings), key, parent, kids)
  {
    hide KidsUpTo, KidsOf;
    kids := [];
    var vec := l.holdings;
    assert KidsUpTo(RowsOf(vec), vec, key, parent, kids, 0) by { NoKidsYet(vec, key, parent); }
    for k := 0 to |vec|
      invariant KidsUpTo(RowsOf(vec), vec, key, parent, kids, k)
    {
      var h := vec[k];
      assert RowsOf(vec)[h.id] == h;
      if h.state.Active? && h.parent == Some(parent) && h.lease.ParentBound? {
        var p := Pick(h.Ref(), key + ":bound:" + Ops.Decimal(h.id));
        KidsAdd(vec, key, parent, kids, k, p);
        kids := kids + [p];
      } else {
        KidsSkip(vec, key, parent, kids, k);
      }
    }
    KidsDone(vec, key, parent, kids);
  }

  lemma NoKidsYet(vec: seq<Holding>, key: string, parent: nat)
    requires UniqueIds(vec)
    ensures KidsUpTo(RowsOf(vec), vec, key, parent, [], 0)
  {
  }

  lemma UnprocessedPick(picks: seq<Pick>, done: nat)
    requires DistinctPicks(picks) && done < |picks|
    ensures !IsPick(picks[..done], picks[done].handle.id)
  {
    forall m | 0 <= m < done
      ensures picks[..done][m].handle.id != picks[done].handle.id
    {
    }
  }

  // Every kid is a new entry of the closure.
  lemma KidsExtend(hs: Rows, root: nat, key: string, picks: seq<Pick>, done: nat, kids: seq<Pick>)
    requires Forest(hs) && root in hs
    requires Worklist(hs, root, key, picks, done) && done < |picks|
    requires KidsOf(hs, key, picks[done].handle.id, kids)
    ensures forall i {:trigger kids[i]} :: 0 <= i < |kids| ==> PickOk(hs, root, key, kids[i])
    ensures DistinctPicks(picks + kids)
  {
    var parent := picks[done].handle.id;
    UnprocessedPick(picks, done);
    forall i | 0 <= i < |kids|
      ensures PickOk(hs, root, key, kids[i])
      ensures kids[i].handle.id != root
    {
      assert KidOk(hs, key, parent, kids[i]);
      assert PickOk(hs, root, key, picks[done]);
      Ret.BoundStep(hs, root, kids[i].handle.id);
      NoBoundCycle(hs, root, parent);
    }
    forall i, j | 0 <= i < |picks| && 0 <= j < |kids|
      ensures picks[i].handle.id != kids[j].handle.id
    {
      assert KidOk(hs, key, parent, kids[j]);
      assert i > 0 ==> IsPick(picks[..done], hs[picks[i].handle.id].parent.value);
    }
  }

  lemma ProcessedGrows(picks: seq<Pick>, kids: seq<Pick>, done: nat, id: nat)
    requires done < |picks|
    ensures IsPick((picks + kids)[..done + 1], id) <==> IsPick(picks[..done], id) || id == picks[done].handle.id
  {
    var now := (picks + kids)[..done + 1];
    assert now == picks[..done] + [picks[done]];
    PickEmbeds(picks[..done], [picks[done]], id);
    if id == picks[done].handle.id {
      assert now[done].handle.id == id;
    }
    if IsPick(now, id) {
      var m :| 0 <= m < |now| && now[m].handle.id == id;
      assert m < done ==> picks[..done][m] == now[m];
    }
  }

  lemma WorklistStep(hs: Rows, root: nat, key: string, picks: seq<Pick>, done: nat, kids: seq<Pick>)
    requires Forest(hs) && root in hs
    requires Worklist(hs, root, key, picks, done) && done < |picks|
    requires KidsOf(hs, key, picks[done].handle.id, kids)
    ensures Worklist(hs, root, key, picks + kids, done + 1)
  {
    hide DistinctPicks, IsPick;
    var all := picks + kids;
    KidsExtend(hs, root, key, picks, done, kids);
    forall k | 0 < k < |all|
      ensures hs[all[k].handle.id].parent.Some? && IsPick(all[..done + 1], hs[all[k].handle.id].parent.value)
    {
      if k < |picks| {
        assert all[k] == picks[k];
        ProcessedGrows(picks, kids, done, hs[all[k].handle.id].parent.value);
      } else {
        assert all[k] == kids[k - |picks|];
        assert KidOk(hs, key, picks[done].handle.id, kids[k - |picks|]);
        ProcessedGrows(picks, kids, done, picks[done].handle.id);
      }
    }
    forall c | Ops.BoundChild(hs, c) && IsPick(all[..done + 1], hs[c].parent.value)
      ensures IsPick(all, c)
    {
      ProcessedGrows(picks, kids, done, hs[c].parent.value);
      PickEmbeds(picks, kids, c);
    }
    forall k | 0 <= k < |all|
      ensures PickOk(hs, root, key, all[k])
    {
      assert all[k] == if k < |picks| then picks[k] else kids[k - |picks|];
    }
  }

  lemma PickEmbeds(a: seq<Pick>, b: seq<Pick>, id: nat)
    ensures IsPick(a, id) || IsPick(b, id) ==> IsPick(a + b, id)
  {
    if IsPick(a, id) {
      var m :| 0 <= m < |a| && a[m].handle.id == id;
      assert (a + b)[m].handle.id == id;
    }
    if IsPick(b, id) {
      var m :| 0 <= m < |b| && b[m].handle.id == id;
      assert (a + b)[|a| + m].handle.id == id;
    }
  }

  lemma WorklistBounded(hs: Rows, root: nat, key: string, picks: seq<Pick>, done: nat)
    requires Worklist(hs, root, key, picks, done)
    ensures |picks| <= |hs.Keys|
  {
    var ids := seq(|picks|, i requires 0 <= i < |picks| => picks[i].handle.id);
    forall i | 0 <= i < |ids|
      ensures ids[i] in hs.Keys
    {
      assert PickOk(hs, root, key, picks[i]);
    }
    DistinctBounded(ids, hs.Keys);
  }

  lemma WorklistComplete(hs: Rows, root: nat, key: string, picks: seq<Pick>)
    requires root in hs && Worklist(hs, root, key, picks, |picks|)
    ensures IdsOf(picks) == Ops.BoundClosure(hs, root)
  {
    assert picks[..|picks|] == picks;
    var ids, closure := IdsOf(picks), Ops.BoundClosure(hs, root);
    forall c | Ops.BoundChild(hs, c) && hs[c].parent.value in ids
      ensures c in ids
    {
      assert IsPick(picks, hs[c].parent.value);
    }
    Ret.ClosureExact(hs, root);
    assert picks[0].handle.id in ids;
    assert closure <= ids;
    forall id | id in ids
      ensures id in closure
    {
      var k :| 0 <= k < |picks| && picks[k].handle.id == id;
      assert PickOk(hs, root, key, picks[k]);
    }
  }

  lemma WorklistStart(s: State, handle: Handle, key: string)
    requires LedgerState.Valid(s) && Ops.Resolve(s, handle).Ok?
    ensures Forest(s.holdings) && handle.id in s.holdings
    ensures Worklist(s.holdings, handle.id, key, [Pick(handle, key)], 0)
  {
    assert RowOk(s, handle.id);
    assert Ops.BoundIn(s.holdings, handle.id, handle.id, 0);
  }

  method SelectBound(l: Ledger, handle: Handle, key: string) returns (picks: seq<Pick>)
    requires l.Valid() && Ops.Resolve(l.View(), handle).Ok?
    ensures Worklist(l.View().holdings, handle.id, key, picks, |picks|)
    ensures IdsOf(picks) == Ops.BoundClosure(l.View().holdings, handle.id)
  {
    hide Worklist, KidsOf, LedgerState.Valid;
    ghost var hs := l.View().holdings;
    WorklistStart(l.View(), handle, key);
    picks := [Pick(handle, key)];
    var i := 0;
    while i < |picks|
      invariant 0 <= i <= |picks|
      invariant Worklist(hs, handle.id, key, picks, i)
      decreases |hs.Keys| - i
    {
      WorklistBounded(hs, handle.id, key, picks, i);
      var kids := BoundChildren(l, key, picks[i].handle.id);
      WorklistStep(hs, handle.id, key, picks, i, kids);
      picks := picks + kids;
      i := i + 1;
    }
    WorklistComplete(hs, handle.id, key, picks);
  }

  // ----- validating the whole batch before touching any state -----

  method KeysClear(l: Ledger, picks: seq<Pick>) returns (clear: bool)
    requires UniqueIds(l.holdings)
    requires forall i, j :: 0 <= i < j < |picks| ==> picks[i].key != picks[j].key
    ensures clear <==> forall k :: 0 <= k < |picks| ==> !Ops.KeyTaken(l.View(), picks[k].key)
  {
    var keys := set t | t in l.cleanups :: l.cleanups[t].key;
    ghost var taken := keys;
    assert forall k :: Ops.KeyTaken(l.View(), k) <==> k in taken;
    for k := 0 to |picks|
      invariant keys == taken + set i | 0 <= i < k :: picks[i].key
      invariant forall i :: 0 <= i < k ==> picks[i].key !in taken
    {
      if picks[k].key in keys {
        assert picks[k].key in taken;
        return false;
      }
      keys := keys + {picks[k].key};
    }
    return true;
  }

  lemma RetireOneMore(s: State, ids: set<nat>, root: nat, key: string, now: Timestamp, id: nat)
    requires ids <= s.holdings.Keys && id in s.holdings && id !in ids
    ensures Ops.RetireRows(s.holdings, ids + {id}) ==
            Ops.RetireRows(s.holdings, ids)[id := s.holdings[id].(state := Retiring(id))]
    ensures Ops.RetireTasks(s, ids + {id}, root, key, now) ==
            Ops.RetireTasks(s, ids, root, key, now)[id := Ops.NewTask(s.holdings[id], Ops.KeyFor(key, root, id), now)]
  {
  }

  // The state after the first `n` entries of the batch.
  ghost function Partway(s: State, picks: seq<Pick>, root: nat, key: string, now: Timestamp, n: nat): State
    requires n <= |picks| && IdsOf(picks[..n]) <= s.holdings.Keys
  {
    s.(holdings := Ops.RetireRows(s.holdings, IdsOf(picks[..n])),
       cleanups := Ops.RetireTasks(s, IdsOf(picks[..n]), root, key, now))
  }

  lemma PartwayStep(s: State, picks: seq<Pick>, root: nat, key: string, now: Timestamp, n: nat)
    requires LedgerState.Valid(s) && Worklist(s.holdings, root, key, picks, |picks|) && n < |picks|
    ensures IdsOf(picks[..n]) <= s.holdings.Keys && IdsOf(picks[..n + 1]) <= s.holdings.Keys
    ensures var id := picks[n].handle.id;
            var mid := Partway(s, picks, root, key, now, n);
            && id in mid.holdings && mid.holdings[id] == s.holdings[id] && mid.holdings[id].id == id
            && Partway(s, picks, root, key, now, n + 1) ==
               mid.(holdings := mid.holdings[id := mid.holdings[id].(state := Retiring(id))],
                    cleanups := mid.cleanups[id := Ops.NewTask(mid.holdings[id], picks[n].key, now)])
  {
    var id := picks[n].handle.id;
    forall k | 0 <= k < |picks|
      ensures picks[k].handle.id in s.holdings
    {
      assert PickOk(s.holdings, root, key, picks[k]);
    }
    assert PickOk(s.holdings, root, key, picks[n]);
    assert RowOk(s, id);
    UnprocessedPick(picks, n);
    assert id !in IdsOf(picks[..n]);
    assert picks[..n + 1] == picks[..n] + [picks[n]];
    assert IdsOf(picks[..n + 1]) == IdsOf(picks[..n]) + {id};
    RetireOneMore(s, IdsOf(picks[..n]), root, key, now, id);
  }

  method RetireAll(l: Ledger, picks: seq<Pick>, root: nat, key: string, now: Timestamp)
    requires l.Valid() && Worklist(l.View().holdings, root, key, picks, |picks|)
    requires IdsOf(picks) <= l.View().holdings.Keys
    modifies l
    ensures UniqueIds(l.holdings) && l.identity == old(l.identity)
    ensures l.View() == Partway(old(l.View()), picks, root, key, now, |picks|)
  {
    hide LedgerState.Valid, Worklist, Partway;
    ghost var s := l.View();
    PartwayStart(s, picks, root, key, now);
    for n := 0 to |picks|
      invariant UniqueIds(l.holdings) && l.identity == old(l.identity)
      invariant IdsOf(picks[..n]) <= s.holdings.Keys
      invariant l.View() == Partway(s, picks, root, key, now, n)
    {
      PartwayStep(s, picks, root, key, now, n);
      RetireOne(l, picks[n].handle.id, picks[n].key, now);
    }
  }

  lemma PartwayStart(s: State, picks: seq<Pick>, root: nat, key: string, now: Timestamp)
    ensures IdsOf(picks[..0]) <= s.holdings.Keys && Partway(s, picks, root, key, now, 0) == s
  {
    assert picks[..0] == [];
  }

  method RetireOne(l: Ledger, id: nat, key: string, now: Timestamp)
    requires UniqueIds(l.holdings) && id in RowsOf(l.holdings)
    modifies l
    ensures UniqueIds(l.holdings) && l.identity == old(l.identity)
    ensures var s := old(l.View());
            l.View() == s.(holdings := s.holdings[id := s.holdings[id].(state := Retiring(id))],
                           cleanups := s.cleanups[id := Ops.NewTask(s.holdings[id], key, now)])
  {
    var i := l.IndexOf(id);
    var h := l.holdings[i.value];
    l.Store(i.value, h.(state := Retiring(id)));
    l.cleanups := l.cleanups[id := Ops.NewTask(h, key, now)];
  }

  lemma BatchKeys(s: State, root: nat, key: string, picks: seq<Pick>)
    requires root in s.holdings && Worklist(s.holdings, root, key, picks, |picks|)
    ensures forall i, j :: 0 <= i < j < |picks| ==> picks[i].key != picks[j].key
    ensures (forall k :: 0 <= k < |picks| ==> !Ops.KeyTaken(s, picks[k].key)) <==>
            !exists id :: id in Ops.BoundClosure(s.holdings, root) && Ops.KeyTaken(s, Ops.KeyFor(key, root, id))
  {
    WorklistComplete(s.holdings, root, key, picks);
    forall i, j | 0 <= i < j < |picks|
      ensures picks[i].key != picks[j].key
    {
      assert PickOk(s.holdings, root, key, picks[i]) && PickOk(s.holdings, root, key, picks[j]);
      if picks[i].key == picks[j].key {
        Ret.KeyForInjective(key, root, picks[i].handle.id, picks[j].handle.id);
      }
    }
    forall k | 0 <= k < |picks|
      ensures picks[k].handle.id in Ops.BoundClosure(s.holdings, root)
      ensures picks[k].key == Ops.KeyFor(key, root, picks[k].handle.id)
    {
      assert PickOk(s.holdings, root, key, picks[k]);
    }
    if exists id :: id in Ops.BoundClosure(s.holdings, root) && Ops.KeyTaken(s, Ops.KeyFor(key, root, id)) {
      var id :| id in Ops.BoundClosure(s.holdings, root) && Ops.KeyTaken(s, Ops.KeyFor(key, root, id));
      var k :| 0 <= k < |picks| && picks[k].handle.id == id;
    }
  }

  method RequestRetirement(l: Ledger, handle: Handle, key: string, now: Timestamp) returns (r: Answer<HoldingState>)
    requires l.Valid()
    modifies l
    ensures l.Valid() && l.identity == old(l.identity)
    ensures var step := Ops.RequestRetirement(old(l.View()), handle, key, now);
            l.View() == step.state && r == step.result
  {
    hide LedgerState.Valid;
    Ret.RequestRetirementPreserves(l.View(), handle, key, now);
    var found := l.Resolve(handle);
    if found.Err? {
      return Err(found.error);
    }
    var root := l.holdings[found.value];
    if !root.state.Active? {
      return Ok(root.state);
    }
    var accepted := RetireBound(l, handle, key, now);
    if !accepted {
      return Err(InvalidCleanup);
    }
    return Ok(Retiring(handle.id));
  }

  // Select, validate, then change: a refused batch leaves the ledger untouched.
  method RetireBound(l: Ledger, handle: Handle, key: string, now: Timestamp) returns (accepted: bool)
    requires l.Valid() && Ops.Resolve(l.View(), handle).Ok?
    modifies l
    ensures UniqueIds(l.holdings) && l.identity == old(l.identity)
    ensures var s := old(l.View());
            var ids := Ops.BoundClosure(s.holdings, handle.id);
            && (accepted <==> !exists id :: id in ids && Ops.KeyTaken(s, Ops.KeyFor(key, handle.id, id)))
            && l.View() == if !accepted then s else
                 s.(holdings := Ops.RetireRows(s.holdings, ids),
                   cleanups := Ops.RetireTasks(s, ids, handle.id, key, now))
  {
    hide LedgerState.Valid, Worklist, Ops.KeyTaken, Ops.KeyFor;
    var picks := SelectBound(l, handle, key);
    BatchKeys(l.View(), handle.id, key, picks);
    accepted := KeysClear(l, picks);
    if accepted {
      RetireAll(l, picks, handle.id, key, now);
      assert picks[..|picks|] == picks;
    }
  }

  // ----- attempts -----

  method ClaimCleanup(l: Ledger, id: nat, worker: HostWitness, now: Timestamp) returns (r: Answer<Option<CleanupWork>>)
    requires l.Valid()
    modifies l
    ensures l.Valid() && l.identity == old(l.identity)
    ensures var step := Ops.Claim(old(l.View()), id, worker, now); l.View() == step.state && r == step.result
  {
    hide LedgerState.Valid, UniqueIds, LedgerState.HasOccupyingChild;
    Inv.ClaimPreserves(l.View(), id, worker, now);
    if id !in l.cleanups {
      return Err(InvalidCleanup);
    }
    var task := l.cleanups[id];
    if task.state.Running? || task.state.Done? {
      return Ok(None);
    }
    var found := l.Resolve(task.holding);
    if found.Err? {
      return Err(found.error);
    }
    var h := l.holdings[found.value];
    if h.state != Retiring(id) {
      return Err(InvalidCleanup);
    }
    var busy := l.HasOccupyingChild(h.id);
    if busy {
      return Ok(None);
    }
    if h.classId !in l.classes {
      return Err(UnknownClass);
    }
    var attempts := task.attempts + 1;
    if attempts > I64_MAX {
      return Err(OutOfRange);
    }
    var claimed := task.(attempts := attempts, state := Running(worker), updatedAt := now);
    l.cleanups := l.cleanups[id := claimed];
    return Ok(Some(CleanupWork(claimed, h.target, h.Key(), l.classes[h.classId].revertGrade)));
  }

  method FinishCleanup(l: Ledger, work: CleanupWork, outcome: CleanupOutcome, now: Timestamp) returns (r: Answer<()>)
    requires l.Valid()
    modifies l
    ensures l.Valid() && l.identity == old(l.identity)
    ensures var step := Ops.Finish(old(l.View()), work, outcome, now); l.View() == step.state && r == step.result
  {
    hide LedgerState.Valid, UniqueIds, LedgerState.HasOccupyingChild;
    Inv.FinishPreserves(l.View(), work, outcome, now);
    var id := work.task.id;
    if id !in l.cleanups {
      return Err(StaleAttempt);
    }
    var task := l.cleanups[id];
    if task != work.task || !task.state.Running? {
      return Err(StaleAttempt);
    }
    var found := l.Resolve(task.holding);
    if found.Err? {
      return Err(found.error);
    }
    var h := l.holdings[found.value];
    if h.state != Retiring(task.id) || h.target != work.target {
      return Err(StaleAttempt);
    }
    var busy := l.HasOccupyingChild(h.id);
    if busy {
      return Err(TeardownOrder);
    }
    Record(l, found.value, id, outcome, now);
    return Ok(());
  }

  // A discharging outcome retires the holding; every outcome is recorded on the task.
  method Record(l: Ledger, i: nat, id: nat, outcome: CleanupOutcome, now: Timestamp)
    requires UniqueIds(l.holdings) && i < |l.holdings| && id in l.cleanups
    modifies l
    ensures UniqueIds(l.holdings) && l.identity == old(l.identity)
    ensures var s := old(l.View());
            var h := old(l.holdings[i]);
            var s1 := if outcome.Discharges() then Ops.SetRow(s, h.id, h.(state := Retired(now))) else s;
            var recorded := s.cleanups[id].(state := outcome.Recorded(), updatedAt := now);
            l.View() == s1.(cleanups := s.cleanups[id := recorded])
  {
    var state := outcome.Recorded();
    if state.Done? {
      l.Store(i, l.holdings[i].(state := Retired(now)));
    }
    l.cleanups := l.cleanups[id := l.cleanups[id].(state := state, updatedAt := now)];
  }

  method AbandonCleanup(l: Ledger, observed: CleanupRecord, now: Timestamp) returns (r: Answer<()>)
    requires l.Valid()
    modifies l
    ensures l.Valid() && l.identity == old(l.identity)
    ensures var step := Ops.Abandon(old(l.View()), observed, now); l.View() == step.state && r == step.result
  {
    hide LedgerState.Valid;
    Inv.AbandonPreserves(l.View(), observed, now);
    if observed.id !in l.cleanups {
      return Err(StaleAttempt);
    }
    var task := l.cleanups[observed.id];
    if task != observed || !task.state.Running? {
      return Err(StaleAttempt);
    }
    l.cleanups := l.cleanups[observed.id := task.(state := Unknown(Ops.Interrupted), updatedAt := now)];
    return Ok(());
  }
}
