// One store: a ledger view, staged transactions over it, and a commit that reaches the
// database before the view is published.

module LedgerStorage {
  import opened Prelude
  import opened Algebra
  import opened LedgerTypes
  import opened LedgerState
  import opened LedgerOps
  import opened LedgerInvariant
  import opened LedgerRows
  import opened LedgerObject
  import opened LedgerBuild
  import opened Persistence
  import opened StoreProtocol
  import Cleanup = LedgerCleanup
  import Closures = LedgerClosures

  // One operation of a transaction body, on the staged aggregate.
  method Perform(l: Ledger, op: Op, stagedIdentity: nat) returns (accepted: bool)
    requires l.Valid()
    modifies l
    ensures l.Valid() && l.identity == old(l.identity)
    ensures l.View() == Apply(old(l.View()), op).state
    ensures accepted <==> Apply(old(l.View()), op).result.Ok?
  {
    hide LedgerState.Valid, UniqueIds, RegisterClass, CreatePool, ResizePool, SettlePool, Grant, Transfer, Release;
    hide Renew;
    hide RequestRetirement, Claim, Finish, Abandon;
    var id := l.identity;
    match op {
      case OpRegisterClass(d) =>
        var r := l.RegisterClass(d);
        accepted := r.Ok?;
      case OpCreatePool(k, c) =>
        var r := l.CreatePool(ClassBinding(id, k.classId, c.Tag()), k.instance, c);
        accepted := r.Ok?;
      case OpResizePool(k, c) =>
        var r := l.ResizePool(PoolRef(id, k, c.Tag()), c);
        accepted := r.Ok?;
      case OpSettlePool(k, now) =>
        var r := Closures.SettleAndZeroPool(l, PoolRef(id, k, Counted), now, stagedIdentity);
        accepted := r.Ok?;
      case OpDeclareInstantiation(c, p) =>
        l.DeclareInstantiation(c, p);
        accepted := true;
      case OpGrant(k, request, t) =>
        var r := l.GrantWithCleanup(PoolRef(id, k, request.claim.Tag()), request, t);
        accepted := r.Ok?;
      case OpTransfer(h, o, t) =>
        var r := l.Transfer(h, o, t);
        accepted := r.Ok?;
      case OpRelease(h, now) =>
        var r := l.Release(h, now);
        accepted := r.Ok?;
      case OpRenew(h, lease, now) =>
        var r := l.Renew(h, lease, now);
        accepted := r.Ok?;
      case OpRequestRetirement(h, k, now) =>
        var r := Cleanup.RequestRetirement(l, h, k, now);
        accepted := r.Ok?;
      case OpClaim(t, w, now) =>
        var r := Cleanup.ClaimCleanup(l, t, w, now);
        accepted := r.Ok?;
      case OpFinish(w, o, now) =>
        var r := Cleanup.FinishCleanup(l, w, o, now);
        accepted := r.Ok?;
      case OpAbandon(seen, now) =>
        var r := Cleanup.AbandonCleanup(l, seen, now);
        accepted := r.Ok?;
    }
  }

  method PerformAll(l: Ledger, ops: seq<Op>, stagedIdentity: nat) returns (accepted: bool)
    requires l.Valid()
    modifies l
    ensures l.Valid()
    ensures accepted <==> Batch(old(l.View()), ops).result.Ok?
    ensures accepted ==> l.View() == Batch(old(l.View()), ops).state
  {
    hide LedgerState.Valid, UniqueIds, Apply;
    ghost var s := l.View();
    for k := 0 to |ops|
      invariant l.Valid()
      invariant Batch(s, ops).result.Ok? <==> Batch(l.View(), ops[k..]).result.Ok?
      invariant Batch(s, ops).result.Ok? ==> Batch(s, ops).state == Batch(l.View(), ops[k..]).state
    {
      assert ops[k..][0] == ops[k] && ops[k..][1..] == ops[k + 1..];
      var ok := Perform(l, ops[k], stagedIdentity);
      if !ok {
        return false;
      }
    }
    return true;
  }

  // The check before a commit can always run, and always passes.
  lemma Checkable(l: Ledger)
    requires l.Valid()
    ensures forall i :: 0 <= i < |l.holdings| ==> l.holdings[i].id < l.nextId
    ensures Filed(l.cleanups) && UniqueIds(l.holdings) && LedgerState.Invariant(l.View())
  {
    ValidFiled(l.View());
    forall i | 0 <= i < |l.holdings|
      ensures l.holdings[i].id < l.nextId
    {
      assert l.holdings[i].id in l.View().holdings;
    }
  }

  class LedgerStore {
    const db: Database
    var ledger: Ledger
    var writable: bool
    var revision: nat

    ghost predicate Valid()
      reads this, db, ledger
    {
      && ledger.Valid()
      && (revision == db.revision ==> db.tables == Encode(ledger.View()))
    }

    ghost function Shown(): StoreView
      reads this, ledger
      requires ledger.Valid()
    {
      StoreView(ledger.View(), writable, revision)
    }

    ghost function Stored(): Db
      reads this, db
    {
      Db(db.tables, db.revision)
    }

    constructor Reopened(db: Database, ledger: Ledger)
      requires ledger.Valid()
      ensures this.db == db && this.ledger == ledger && writable && revision == db.revision
    {
      this.db := db;
      this.ledger := ledger;
      writable := true;
      revision := db.revision;
    }

    // Refusals leave the database alone; a stale view stops writing; a failed commit
    // leaves an unknown outcome behind and needs reopening.
    method Transaction(ops: seq<Op>, fault: Fault, identity: nat) returns (r: Result<(), StoreError>)
      requires Valid()
      modifies this, db
      ensures Valid() && (ledger == old(ledger) || fresh(ledger))
      ensures old(ledger).Valid() && old(ledger).View() == old(ledger.View())
      ensures exists snap :: Transact(old(Stored()), old(Shown()), ops, snap, fault, Stored(), Shown(), r)
    {
      hide LedgerState.Invariant, Numbered, UniqueIds, FreshClasses, FreshPools, FreshChildren, FreshTasks, Batch;
      hide Upserted, Encode, Evolves;
      ghost var none: Snapshot := Snapshot([], [], [], [], []);
      if !writable {
        assert Transact(old(Stored()), old(Shown()), ops, none, fault, Stored(), Shown(), Err(RecoveryRequired));
        return Err(RecoveryRequired);
      }
      if db.revision != revision {
        writable := false;
        assert Transact(old(Stored()), old(Shown()), ops, none, fault, Stored(), Shown(), Err(StaleView));
        return Err(StaleView);
      }
      if revision + 1 > I64_MAX {
        assert Transact(old(Stored()), old(Shown()), ops, none, fault, Stored(), Shown(), Err(RevisionExhausted));
        return Err(RevisionExhausted);
      }
      var staged := new Ledger.Clone(ledger, identity);
      var accepted := PerformAll(staged, ops, identity);
      if !accepted {
        writable := !fault.RollbackFails?;
        assert Transact(old(Stored()), old(Shown()), ops, none, fault, Stored(), Shown(), Err(Refused));
        return Err(Refused);
      }
      Checkable(staged);
      var checked := CheckInvariant(staged);
      assert checked.Ok?;
      var snap := TakeSnapshot(staged);
      BatchPreserves(ledger.View(), ops);
      PersistRefinesOverwrite(ledger.View(), staged.View(), snap);
      r := Commit(staged, snap, fault);
      assert Transact(old(Stored()), old(Shown()), ops, snap, fault, Stored(), Shown(), r);
    }

    method Commit(staged: Ledger, snap: Snapshot, fault: Fault) returns (r: Result<(), StoreError>)
      requires staged.Valid()
      modifies this, db
      ensures ledger == if fault.CommitFails? then old(ledger) else staged
      ensures var next := Db(Upserted(old(db.tables), snap), old(db.revision) + 1);
              Stored() == if fault.CommitFails? && !fault.landed then old(Stored()) else next
      ensures writable == (if fault.CommitFails? then false else old(writable))
      ensures revision == if fault.CommitFails? then old(revision) else old(db.revision) + 1
      ensures r == if fault.CommitFails? then Err(CommitFailed) else Ok(())
    {
      var tables, stored := db.tables, db.revision;
      db.Persist(snap);
      db.revision := stored + 1;
      if fault.CommitFails? {
        if !fault.landed {
          db.tables, db.revision := tables, stored;
        }
        writable := false;
        return Err(CommitFailed);
      }
      ledger := staged;
      revision := stored + 1;
      return Ok(());
    }

    // The gate of every read: a view that is behind is never shown.
    method BeginRead() returns (r: Result<(), StoreError>)
      requires Valid()
      modifies this`writable
      ensures Valid()
      ensures r.Ok? ==> writable && Stored() == old(Stored()) && db.tables == Encode(ledger.View())
      ensures StoreProtocol.Read(Stored(), old(Shown()), Shown(),
                match r case Ok(_) => Ok(ledger.View()) case Err(e) => Err(e))
    {
      if !writable {
        return Err(RecoveryRequired);
      }
      if db.revision != revision {
        writable := false;
        return Err(StaleView);
      }
      return Ok(());
    }
  }
}
