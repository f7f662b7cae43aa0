// Which snapshots are accepted, in plain facts: nothing is listed twice, every class may be
// registered, and the ledger they list is valid.

module SnapshotFacts {
  import opened Prelude
  import opened LedgerTypes
  import opened LedgerState
  import opened LedgerRows
  import opened LedgerObject
  import opened LedgerBuild
  import opened LedgerFacts

  lemma {:induction false} ClassListed(items: seq<ClassDecl>, c: Name)
    ensures c in ByClass(items) <==> exists i :: 0 <= i < |items| && items[i].classId == c
  {
    if items != [] {
      var n := |items| - 1;
      ClassListed(items[..n], c);
      if exists i :: 0 <= i < n && items[..n][i].classId == c {
        var i :| 0 <= i < n && items[..n][i].classId == c;
        assert items[i].classId == c;
      }
      forall i | 0 <= i < n && items[i].classId == c
        ensures items[..n][i].classId == c
      {
      }
    }
  }

  lemma {:induction false} PoolListed(items: seq<PoolRecord>, key: ResourceKey)
    ensures key in ByPool(items) <==> exists i :: 0 <= i < |items| && items[i].key == key
  {
    if items != [] {
      var n := |items| - 1;
      PoolListed(items[..n], key);
      if exists i :: 0 <= i < n && items[..n][i].key == key {
        var i :| 0 <= i < n && items[..n][i].key == key;
        assert items[i].key == key;
      }
      forall i | 0 <= i < n && items[i].key == key
        ensures items[..n][i].key == key
      {
      }
    }
  }

  lemma {:induction false} ChildListed(items: seq<(Name, Name)>, c: Name)
    ensures c in ByChild(items) <==> exists i :: 0 <= i < |items| && items[i].0 == c
  {
    if items != [] {
      var n := |items| - 1;
      ChildListed(items[..n], c);
      if exists i :: 0 <= i < n && items[..n][i].0 == c {
        var i :| 0 <= i < n && items[..n][i].0 == c;
        assert items[i].0 == c;
      }
      forall i | 0 <= i < n && items[i].0 == c
        ensures items[..n][i].0 == c
      {
      }
    }
  }

  lemma {:induction false} TaskListed(items: seq<CleanupRecord>, id: nat)
    ensures id in ByTask(items) <==> exists i :: 0 <= i < |items| && items[i].id == id
  {
    if items != [] {
      var n := |items| - 1;
      TaskListed(items[..n], id);
      if exists i :: 0 <= i < n && items[..n][i].id == id {
        var i :| 0 <= i < n && items[..n][i].id == id;
        assert items[i].id == id;
      }
      forall i | 0 <= i < n && items[i].id == id
        ensures items[..n][i].id == id
      {
      }
    }
  }

  // Nothing is listed twice.
  ghost predicate ListedOnce(snap: Snapshot) {
    && (forall i, j :: 0 <= i < j < |snap.classes| ==> snap.classes[i].classId != snap.classes[j].classId)
    && (forall i, j :: 0 <= i < j < |snap.pools| ==> snap.pools[i].key != snap.pools[j].key)
    && (forall i, j :: 0 <= i < j < |snap.instantiations| ==> snap.instantiations[i].0 != snap.instantiations[j].0)
    && (forall i, j :: 0 <= i < j < |snap.cleanups| ==> snap.cleanups[i].id != snap.cleanups[j].id)
    && (forall i, j :: 0 <= i < j < |snap.holdings| ==> snap.holdings[i].id != snap.holdings[j].id)
  }

  lemma ClassesOnce(items: seq<ClassDecl>)
    ensures FreshClasses(items) <==>
            && (forall i :: 0 <= i < |items| ==> MayRegister(items[i]))
            && (forall i, j :: 0 <= i < j < |items| ==> items[i].classId != items[j].classId)
  {
    hide ByClass;
    forall j | 0 <= j < |items|
      ensures items[j].classId in ByClass(items[..j]) <==>
              exists i :: 0 <= i < j && items[i].classId == items[j].classId
    {
      ClassListed(items[..j], items[j].classId);
      forall i | 0 <= i < j
        ensures items[..j][i] == items[i]
      {
      }
    }
  }

  lemma PoolsOnce(items: seq<PoolRecord>)
    ensures FreshPools(items) <==> forall i, j :: 0 <= i < j < |items| ==> items[i].key != items[j].key
  {
    hide ByPool;
    forall j | 0 <= j < |items|
      ensures items[j].key in ByPool(items[..j]) <==> exists i :: 0 <= i < j && items[i].key == items[j].key
    {
      PoolListed(items[..j], items[j].key);
      forall i | 0 <= i < j
        ensures items[..j][i] == items[i]
      {
      }
    }
  }

  lemma ChildrenOnce(items: seq<(Name, Name)>)
    ensures FreshChildren(items) <==> forall i, j :: 0 <= i < j < |items| ==> items[i].0 != items[j].0
  {
    hide ByChild;
    forall j | 0 <= j < |items|
      ensures items[j].0 in ByChild(items[..j]) <==> exists i :: 0 <= i < j && items[i].0 == items[j].0
    {
      ChildListed(items[..j], items[j].0);
      forall i | 0 <= i < j
        ensures items[..j][i] == items[i]
      {
      }
    }
  }

  lemma TasksOnce(items: seq<CleanupRecord>)
    ensures FreshTasks(items) <==> forall i, j :: 0 <= i < j < |items| ==> items[i].id != items[j].id
  {
    hide ByTask;
    forall j | 0 <= j < |items|
      ensures items[j].id in ByTask(items[..j]) <==> exists i :: 0 <= i < j && items[i].id == items[j].id
    {
      TaskListed(items[..j], items[j].id);
      forall i | 0 <= i < j
        ensures items[..j][i] == items[i]
      {
      }
    }
  }

  lemma RowsOnce(items: seq<Holding>)
    ensures UniqueIds(items) <==> forall i, j :: 0 <= i < j < |items| ==> items[i].id != items[j].id
  {
    if UniqueIds(items) {
      forall i, j | 0 <= i < j < |items|
        ensures items[i].id != items[j].id
      {
        assert !SameId(items, i, j);
      }
    }
  }

  // A snapshot is accepted exactly when nothing in it is listed twice, every class in it may be
  // registered, and the state it lists satisfies the facts of the invariant.
  lemma AcceptableExact(snap: Snapshot)
    ensures Acceptable(snap) <==>
            && ListedOnce(snap)
            && (forall i :: 0 <= i < |snap.classes| ==> MayRegister(snap.classes[i]))
            && UniqueIds(snap.holdings) && Facts(StateOf(snap))
  {
    hide FreshClasses, FreshPools, FreshChildren, FreshTasks, UniqueIds, Invariant, Facts, StateOf, MayRegister;
    ClassesOnce(snap.classes);
    PoolsOnce(snap.pools);
    ChildrenOnce(snap.instantiations);
    TasksOnce(snap.cleanups);
    RowsOnce(snap.holdings);
    if UniqueIds(snap.holdings) {
      InvariantExact(StateOf(snap));
    }
  }
}
