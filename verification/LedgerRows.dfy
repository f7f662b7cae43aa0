// The holdings vector of the ledger object and the row map it denotes.

module LedgerRows {
  import opened Prelude
  import opened Algebra
  import opened Auth
  import opened LedgerTypes
  import opened LedgerState
  import opened LedgerInvariant

  predicate SameId(hs: seq<Holding>, i: nat, j: nat) {
    i < j < |hs| && hs[i].id == hs[j].id
  }

  predicate UniqueIds(hs: seq<Holding>) {
    forall i: nat, j: nat :: j < |hs| && i < j ==> !SameId(hs, i, j)
  }

  predicate IdBefore(hs: seq<Holding>, n: nat, id: nat)
    requires n <= |hs|
  {
    exists j :: 0 <= j < n && hs[j].id == id
  }

  lemma IdNotBefore(hs: seq<Holding>, n: nat)
    requires UniqueIds(hs) && n < |hs|
    ensures !IdBefore(hs, n, hs[n].id)
  {
    forall j | 0 <= j < n
      ensures hs[j].id != hs[n].id
    {
      assert !SameId(hs, j, n);
    }
  }

  lemma IdBeforeGrows(hs: seq<Holding>, n: nat, id: nat)
    requires n < |hs|
    ensures IdBefore(hs, n + 1, id) <==> IdBefore(hs, n, id) || id == hs[n].id
  {
  }

  function RowsOf(hs: seq<Holding>): (r: Rows)
    requires UniqueIds(hs)
    ensures forall i :: 0 <= i < |hs| ==> hs[i].id in r && r[hs[i].id] == hs[i]
    ensures forall id :: id in r ==> exists i :: 0 <= i < |hs| && hs[i].id == id
  {
    assert forall i, j | 0 <= i < |hs| && 0 <= j < |hs| && hs[i].id == hs[j].id :: i == j by {
      forall i, j | 0 <= i < |hs| && 0 <= j < |hs| && hs[i].id == hs[j].id
        ensures i == j
      {
        assert !SameId(hs, i, j) && !SameId(hs, j, i);
      }
    }
    map i | 0 <= i < |hs| :: hs[i].id := hs[i]
  }

  // A map that agrees with the vector at every index, and has no other key.
  predicate Denotes(hs: seq<Holding>, r: Rows) {
    && (forall i {:trigger hs[i]} :: 0 <= i < |hs| ==> hs[i].id in r && r[hs[i].id] == hs[i])
    && (forall id {:trigger id in r} :: id in r ==> exists i :: 0 <= i < |hs| && hs[i].id == id)
  }

  lemma DenotesUnique(hs: seq<Holding>, a: Rows, b: Rows)
    requires Denotes(hs, a) && Denotes(hs, b)
    ensures a == b
  {
    forall id | id in a
      ensures id in b && b[id] == a[id]
    {
      var i :| 0 <= i < |hs| && hs[i].id == id;
    }
    forall id | id in b
      ensures id in a
    {
      var i :| 0 <= i < |hs| && hs[i].id == id;
    }
  }

  lemma RowsUpdate(hs: seq<Holding>, i: nat, h: Holding)
    requires UniqueIds(hs) && i < |hs| && h.id == hs[i].id
    ensures UniqueIds(hs[i := h])
    ensures RowsOf(hs[i := h]) == RowsOf(hs)[h.id := h]
  {
    var ks := hs[i := h];
    forall a: nat, b: nat | b < |ks| && a < b
      ensures !SameId(ks, a, b)
    {
      assert !SameId(hs, a, b);
    }
    UpdateDenotes(hs, i, h);
    DenotesUnique(ks, RowsOf(ks), RowsOf(hs)[h.id := h]);
  }

  lemma UpdateDenotes(hs: seq<Holding>, i: nat, h: Holding)
    requires UniqueIds(hs) && i < |hs| && h.id == hs[i].id
    ensures Denotes(hs[i := h], RowsOf(hs)[h.id := h])
  {
    var ks, r := hs[i := h], RowsOf(hs)[h.id := h];
    forall k | 0 <= k < |ks|
      ensures ks[k].id in r && r[ks[k].id] == ks[k]
    {
      assert !SameId(hs, k, i) && !SameId(hs, i, k);
      assert hs[k].id in RowsOf(hs);
    }
    forall id | id in r
      ensures exists k :: 0 <= k < |ks| && ks[k].id == id
    {
      if id == h.id {
        assert ks[i].id == id;
      } else {
        var k :| 0 <= k < |hs| && hs[k].id == id;
        assert ks[k].id == id;
      }
    }
  }

  lemma RowsAppend(hs: seq<Holding>, h: Holding)
    requires UniqueIds(hs) && h.id !in RowsOf(hs)
    ensures UniqueIds(hs + [h])
    ensures RowsOf(hs + [h]) == RowsOf(hs)[h.id := h]
  {
    var ks := hs + [h];
    forall a: nat, b: nat | b < |ks| && a < b
      ensures !SameId(ks, a, b)
    {
      assert !SameId(hs, a, b);
      assert hs[a].id in RowsOf(hs);
    }
    AppendDenotes(hs, h);
    DenotesUnique(ks, RowsOf(ks), RowsOf(hs)[h.id := h]);
  }

  lemma AppendDenotes(hs: seq<Holding>, h: Holding)
    requires UniqueIds(hs) && h.id !in RowsOf(hs)
    ensures Denotes(hs + [h], RowsOf(hs)[h.id := h])
  {
    var ks, r := hs + [h], RowsOf(hs)[h.id := h];
    forall k | 0 <= k < |ks|
      ensures ks[k].id in r && r[ks[k].id] == ks[k]
    {
      if k < |hs| {
        assert ks[k] == hs[k] && hs[k].id in RowsOf(hs);
      }
    }
    forall id | id in r
      ensures exists k :: 0 <= k < |ks| && ks[k].id == id
    {
      if id == h.id {
        assert ks[|hs|].id == id;
      } else {
        var k :| 0 <= k < |hs| && hs[k].id == id;
        assert ks[k].id == id;
      }
    }
  }

  // Fragments charged to `key`, in vector order.
  function LiveIn(hs: seq<Holding>, key: ResourceKey): seq<Frag> {
    if hs == [] then []
    else
      var rest := LiveIn(hs[..|hs| - 1], key);
      var h := hs[|hs| - 1];
      if Charges(h, key) then rest + [h.frag] else rest
  }

  lemma {:induction false} LiveInsert(rows: Rows, h: Holding, key: ResourceKey, n: nat)
    requires h.id !in rows
    ensures multiset(LiveUpTo(rows[h.id := h], key, n)) ==
            multiset(LiveUpTo(rows, key, n)) + (if h.id < n && Charges(h, key) then multiset{h.frag} else multiset{})
  {
    if n > 0 {
      LiveInsert(rows, h, key, n - 1);
    }
  }

  lemma UniqueFront(hs: seq<Holding>)
    requires UniqueIds(hs) && hs != []
    ensures UniqueIds(hs[..|hs| - 1]) && hs[|hs| - 1].id !in RowsOf(hs[..|hs| - 1])
  {
    var n := |hs| - 1;
    var front := hs[..n];
    forall a: nat, b: nat | b < |front| && a < b
      ensures !SameId(front, a, b)
    {
      assert !SameId(hs, a, b);
    }
    forall k | 0 <= k < |front|
      ensures front[k].id != hs[n].id
    {
      assert !SameId(hs, k, n);
    }
  }

  lemma RowsSplit(hs: seq<Holding>)
    requires UniqueIds(hs)
    ensures hs == [] ==> RowsOf(hs) == map[]
    ensures hs != [] ==>
              var front, h := hs[..|hs| - 1], hs[|hs| - 1];
              UniqueIds(front) && h.id !in RowsOf(front) && RowsOf(hs) == RowsOf(front)[h.id := h]
  {
    if hs != [] {
      UniqueFront(hs);
      RowsAppend(hs[..|hs| - 1], hs[|hs| - 1]);
      assert hs == hs[..|hs| - 1] + [hs[|hs| - 1]];
    }
  }

  // The vector order and the id order charge the same multiset of fragments.
  lemma {:induction false} LiveInMatches(hs: seq<Holding>, key: ResourceKey, n: nat)
    requires UniqueIds(hs) && IdsBelow(RowsOf(hs), n)
    ensures multiset(LiveIn(hs, key)) == multiset(LiveUpTo(RowsOf(hs), key, n))
    decreases |hs|
  {
    if hs == [] {
      LiveNone(RowsOf(hs), key, n);
    } else {
      var front, h := hs[..|hs| - 1], hs[|hs| - 1];
      assert hs == front + [h];
      UniqueFront(hs);
      RowsAppend(front, h);
      assert IdsBelow(RowsOf(front), n);
      LiveInMatches(front, key, n);
      LiveInsert(RowsOf(front), h, key, n);
    }
  }

  // Exactly `d` parent steps from a root.
  predicate AtDepth(hs: Rows, id: nat, d: nat)
    decreases d
  {
    && id in hs
    && (if d == 0 then hs[id].parent.None? else hs[id].parent.Some? && AtDepth(hs, hs[id].parent.value, d - 1))
  }

  lemma {:induction false} DepthUnique(hs: Rows, id: nat, d: nat, e: nat)
    requires AtDepth(hs, id, d) && AtDepth(hs, id, e)
    ensures d == e
    decreases d
  {
    if d > 0 {
      DepthUnique(hs, hs[id].parent.value, d - 1, e - 1);
    }
  }

  lemma {:induction false} RootedHasDepth(hs: Rows, id: nat, n: nat) returns (d: nat)
    requires RootedIn(hs, id, n)
    ensures AtDepth(hs, id, d)
    decreases n
  {
    if hs[id].parent.None? {
      d := 0;
    } else {
      d := RootedHasDepth(hs, hs[id].parent.value, n - 1);
      d := d + 1;
    }
  }

  lemma {:induction false} DepthRooted(hs: Rows, id: nat, d: nat)
    requires AtDepth(hs, id, d)
    ensures RootedIn(hs, id, d)
    decreases d
  {
    if d > 0 {
      DepthRooted(hs, hs[id].parent.value, d - 1);
    }
  }
}
