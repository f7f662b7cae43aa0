// The ledger aggregate as an object: a holdings vector and four maps, updated in place.
// Every method is proved against the abstract transition it implements.

module LedgerObject {
  import opened Prelude
  import opened Algebra
  import opened Auth
  import opened LedgerTypes
  import opened LedgerState
  import opened LedgerRows
  import Ops = LedgerOps
  import Inv = LedgerInvariant
  import Ret = Retirement

  // References are scoped to the ledger view that issued them.
  datatype ClassBinding = ClassBinding(ledger: nat, id: Name, algebra: AlgebraTag)
  datatype PoolRef = PoolRef(ledger: nat, key: ResourceKey, tag: AlgebraTag)

  type Answer<T> = Result<T, LedgerError>

  class Ledger {
    var identity: nat
    var classes: map<Name, ClassDecl>
    var capacities: map<ResourceKey, Frag>
    var holdings: seq<Holding>
    var nextId: nat
    var cleanups: map<nat, CleanupRecord>
    var instantiations: map<Name, Name>

    // The abstract value of the object.
    ghost function View(): State
      reads this
      requires UniqueIds(holdings)
    {
      State(classes, capacities, RowsOf(holdings), nextId, cleanups, instantiations)
    }

    ghost predicate Valid()
      reads this
    {
      UniqueIds(holdings) && LedgerState.Valid(View())
    }

    constructor (identity: nat)
      ensures Valid() && View() == Empty && this.identity == identity
    {
      this.identity := identity;
      classes := map[];
      capacities := map[];
      holdings := [];
      nextId := 0;
      cleanups := map[];
      instantiations := map[];
      new;
      assert RowsOf(holdings) == map[];
      assert View() == Empty;
    }

    constructor Clone(other: Ledger, identity: nat)
      requires other.Valid()
      ensures Valid() && View() == other.View() && this.identity == identity
      ensures holdings == other.holdings
    {
      this.identity := identity;
      classes := other.classes;
      capacities := other.capacities;
      holdings := other.holdings;
      nextId := other.nextId;
      cleanups := other.cleanups;
      instantiations := other.instantiations;
    }

    // ----- lookups -----

    method IndexOf(id: nat) returns (i: Option<nat>)
      requires UniqueIds(holdings)
      ensures i.Some? ==> i.value < |holdings| && holdings[i.value].id == id && id in RowsOf(holdings)
      ensures i.Some? ==> holdings[i.value] == RowsOf(holdings)[id]
      ensures i.None? ==> id !in RowsOf(holdings)
    {
      for k := 0 to |holdings|
        invariant forall j :: 0 <= j < k ==> holdings[j].id != id
      {
        if holdings[k].id == id {
          return Some(k);
        }
      }
      return None;
    }

    method Resolve(handle: Handle) returns (r: Answer<nat>)
      requires UniqueIds(holdings)
      ensures r.Ok? <==> Ops.Resolve(View(), handle).Ok?
      ensures r.Ok? ==> r.value < |holdings| && holdings[r.value] == Ops.Resolve(View(), handle).value
      ensures r.Ok? ==> holdings[r.value].id == handle.id
      ensures r.Err? ==> r.error == Ops.Resolve(View(), handle).error
    {
      var i := IndexOf(handle.id);
      match i {
        case None => return Err(ForgedHandle);
        case Some(k) =>
          if holdings[k].generation != handle.generation {
            return Err(StaleGeneration);
          }
          return Ok(k);
      }
    }

    method HasOccupyingChild(id: nat) returns (b: bool)
      requires UniqueIds(holdings)
      ensures b == LedgerState.HasOccupyingChild(RowsOf(holdings), id)
    {
      for k := 0 to |holdings|
        invariant forall j :: 0 <= j < k ==> !(holdings[j].state.Occupies() && holdings[j].parent == Some(id))
      {
        if holdings[k].state.Occupies() && holdings[k].parent == Some(id) {
          assert ChildOf(RowsOf(holdings), holdings[k].id, id);
          return true;
        }
      }
      return false;
    }

    method LiveFrags(key: ResourceKey) returns (r: seq<Frag>)
      requires UniqueIds(holdings) && IdsBelow(RowsOf(holdings), nextId)
      ensures multiset(r) == multiset(LedgerState.LiveFrags(View(), key))
    {
      r := [];
      for k := 0 to |holdings|
        invariant r == LiveIn(holdings[..k], key)
      {
        assert holdings[..k + 1][..k] == holdings[..k];
        if Charges(holdings[k], key) {
          r := r + [holdings[k].frag];
        }
      }
      assert holdings[..|holdings|] == holdings;
      LiveInMatches(holdings, key, nextId);
    }

    static lemma UniformPermutation(tag: AlgebraTag, a: seq<Frag>, b: seq<Frag>)
      requires multiset(a) == multiset(b)
      ensures Uniform(tag, a) <==> Uniform(tag, b)
    {
      if Uniform(tag, a) { ComposePermutation(tag, a, b); }
      if Uniform(tag, b) { ComposePermutation(tag, b, a); }
    }

    // ----- classes and pools -----

    method RegisterClass(decl: ClassDecl) returns (r: Answer<ClassBinding>)
      requires Valid()
      modifies this
      ensures Valid() && identity == old(identity)
      ensures View() == Ops.RegisterClass(old(View()), decl).state
      ensures match Ops.RegisterClass(old(View()), decl).result
              case Err(e) => r == Err(e)
              case Ok(_) => r == Ok(ClassBinding(identity, decl.classId, decl.algebra))
    {
      hide LedgerState.Valid, UniqueIds;
      Inv.RegisterClassPreserves(View(), decl);
      if decl.cleanup.Managed? {
        if !decl.cleanup.kind.ProviderKind? && (!decl.algebra.Exclusive? || !decl.releaseIdempotent) {
          return Err(InvalidCleanup);
        }
        if !decl.releaseIdempotent && !decl.revertGrade.Compensable? {
          return Err(InvalidCleanup);
        }
      }
      if decl.classId in classes {
        if classes[decl.classId] != decl {
          return Err(ClassConflict);
        }
      } else {
        classes := classes[decl.classId := decl];
      }
      return Ok(ClassBinding(identity, decl.classId, decl.algebra));
    }

    // The binding and the capacity are typed by the same algebra.
    method CreatePool(binding: ClassBinding, instance: Name, capacity: ValidFrag) returns (r: Answer<PoolRef>)
      requires Valid() && binding.algebra == capacity.Tag()
      modifies this
      ensures Valid() && identity == old(identity)
      ensures binding.ledger != identity ==> r == Err(ForeignReference) && View() == old(View())
      ensures binding.ledger == identity ==>
                var key := ResourceKey(binding.id, instance);
                var step := Ops.CreatePool(old(View()), key, capacity);
                && View() == step.state
                && r == (match step.result
                         case Err(e) => Err(e)
                         case Ok(_) => Ok(PoolRef(identity, key, capacity.Tag())))
    {
      if binding.ledger != identity {
        return Err(ForeignReference);
      }
      var key := ResourceKey(binding.id, instance);
      hide LedgerState.Valid, UniqueIds;
      Inv.CreatePoolPreserves(View(), key, capacity);
      if binding.id !in classes {
        return Err(UnknownClass);
      }
      if classes[binding.id].algebra != binding.algebra {
        return Err(AlgebraMismatch);
      }
      if key in capacities {
        if capacities[key] == capacity {
          return Ok(PoolRef(identity, key, capacity.Tag()));
        }
        return Err(PoolExists);
      }
      capacities := capacities[key := capacity];
      return Ok(PoolRef(identity, key, capacity.Tag()));
    }

    method CheckPool(pool: PoolRef) returns (r: Answer<Frag>)
      requires UniqueIds(holdings)
      ensures r == if pool.ledger != identity then Err(ForeignReference) else Ops.CheckPool(View(), pool.key, pool.tag)
    {
      if pool.ledger != identity {
        return Err(ForeignReference);
      }
      if pool.key !in capacities {
        return Err(UnknownPool);
      }
      if capacities[pool.key].Tag() != pool.tag {
        return Err(AlgebraMismatch);
      }
      return Ok(capacities[pool.key]);
    }

    method ResizePool(pool: PoolRef, capacity: ValidFrag) returns (r: Answer<()>)
      requires Valid() && pool.tag == capacity.Tag()
      modifies this
      ensures Valid() && identity == old(identity)
      ensures pool.ledger != identity ==> r == Err(ForeignReference) && View() == old(View())
      ensures pool.ledger == identity ==>
                var step := Ops.ResizePool(old(View()), pool.key, capacity); View() == step.state && r == step.result
    {
      Inv.ResizePoolPreserves(View(), pool.key, capacity);
      var checked := CheckPool(pool);
      if checked.Err? {
        return Err(checked.error);
      }
      var live := LiveFrags(pool.key);
      UniformPermutation(capacity.Tag(), live, LedgerState.LiveFrags(View(), pool.key));
      FitsPermutation(capacity, live, LedgerState.LiveFrags(View(), pool.key));
      if !Uniform(capacity.Tag(), live) {
        return Err(AlgebraMismatch);
      }
      if !Fits(capacity, live) {
        return Err(Conflict);
      }
      capacities := capacities[pool.key := capacity];
      return Ok(());
    }

    method DeclareInstantiation(child: Name, parent: Name)
      requires Valid()
      modifies this
      ensures Valid() && identity == old(identity)
      ensures View() == Ops.DeclareInstantiation(old(View()), child, parent).state
    {
      InstantiationPreserves(View(), child, parent);
      instantiations := instantiations[child := parent];
    }

    static lemma InstantiationPreserves(s: State, child: Name, parent: Name)
      requires LedgerState.Valid(s)
      ensures LedgerState.Valid(Ops.DeclareInstantiation(s, child, parent).state)
    {
      var t := Ops.DeclareInstantiation(s, child, parent).state;
      Inv.ForwardKeepsStructure(s, t);
      Inv.RowsIgnoreTasks(s, t);
      Inv.TasksIgnoreInstantiations(s, t);
    }

    // ----- holdings -----

    method TargetTaken(target: CleanupTarget) returns (b: bool)
      requires UniqueIds(holdings)
      ensures b == Ops.TargetTaken(RowsOf(holdings), target)
    {
      for k := 0 to |holdings|
        invariant forall j :: 0 <= j < k ==> !(holdings[j].state.Occupies() && target.ConflictsWith(holdings[j].target))
      {
        if holdings[k].state.Occupies() && target.ConflictsWith(holdings[k].target) {
          assert holdings[k].id in RowsOf(holdings);
          return true;
        }
      }
      return false;
    }

    // The checks of a grant, in order.
    method Admit(pool: PoolRef, request: GrantRequest, target: CleanupTarget) returns (r: Answer<Lease>)
      requires Valid() && pool.tag == request.claim.Tag() && pool.ledger == identity
      ensures r == Ops.AdmitGrant(View(), pool.key, request, target)
    {
      var checked := CheckPool(pool);
      if checked.Err? {
        return Err(checked.error);
      }
      var cap := checked.value;
      if pool.key.classId !in classes {
        return Err(UnknownClass);
      }
      var decl := classes[pool.key.classId];
      if target.Policy() != decl.cleanup || target.Unresolved? {
        return Err(CleanupRequired);
      }
      if request.generation == "" {
        return Err(InvalidGeneration);
      }
      var taken := TargetTaken(target);
      if taken {
        return Err(Conflict);
      }
      if request.parent.Some? {
        var ph := Resolve(request.parent.value);
        if ph.Err? {
          return Err(ph.error);
        }
        var p := holdings[ph.value];
        if !p.state.Active? {
          return Err(ForgedHandle);
        }
        if p.subject != request.owner
           && !(request.owner in instantiations && instantiations[request.owner] == p.subject) {
          return Err(ParentAuthority);
        }
      }
      var lease := request.lease.Resolve(decl.leaseDuration, request.parent.Some?, request.now);
      if lease.Err? {
        return Err(lease.error);
      }
      var live := LiveFrags(pool.key);
      var all := live + [request.claim];
      ghost var specAll := LedgerState.LiveFrags(View(), pool.key) + [request.claim];
      UniformPermutation(cap.Tag(), all, specAll);
      FitsPermutation(cap, all, specAll);
      if !Uniform(cap.Tag(), all) {
        return Err(AlgebraMismatch);
      }
      if !Fits(cap, all) {
        return Err(Conflict);
      }
      if nextId > I64_MAX {
        return Err(OutOfRange);
      }
      return lease;
    }

    static lemma FreshId(s: State)
      requires LedgerState.Valid(s)
      ensures s.nextId !in s.holdings
    {
    }

    method GrantWithCleanup(pool: PoolRef, request: GrantRequest, target: CleanupTarget) returns (r: Answer<Handle>)
      requires Valid() && pool.tag == request.claim.Tag()
      modifies this
      ensures Valid() && identity == old(identity)
      ensures pool.ledger != identity ==> r == Err(ForeignReference) && View() == old(View())
      ensures pool.ledger == identity ==>
                var step := Ops.Grant(old(View()), pool.key, request, target); View() == step.state && r == step.result
    {
      if pool.ledger != identity {
        return Err(ForeignReference);
      }
      hide LedgerState.Valid, UniqueIds, Ops.AdmitGrant;
      Inv.GrantPreserves(View(), pool.key, request, target);
      FreshId(View());
      var admitted := Admit(pool, request, target);
      if admitted.Err? {
        return Err(admitted.error);
      }
      var h := Ops.NewHolding(nextId, pool.key, request, admitted.value, target);
      Append(h);
      return Ok(h.Ref());
    }

    method Append(h: Holding)
      requires UniqueIds(holdings) && h.id == nextId && h.id !in RowsOf(holdings)
      modifies this`holdings, this`nextId
      ensures UniqueIds(holdings)
      ensures View() == Ops.SetRow(old(View()), old(nextId), h).(nextId := old(nextId) + 1)
    {
      RowsAppend(holdings, h);
      holdings := holdings + [h];
      nextId := nextId + 1;
    }

    // Replace one row of the vector.
    method Store(i: nat, h: Holding)
      requires UniqueIds(holdings) && i < |holdings| && h.id == holdings[i].id
      modifies this`holdings
      ensures UniqueIds(holdings) && holdings == old(holdings)[i := h]
      ensures View() == Ops.SetRow(old(View()), h.id, h)
    {
      RowsUpdate(holdings, i, h);
      holdings := holdings[i := h];
    }

    method Transfer(handle: Handle, owner: Name, to: Name) returns (r: Answer<()>)
      requires Valid()
      modifies this
      ensures Valid() && identity == old(identity)
      ensures var step := Ops.Transfer(old(View()), handle, owner, to); View() == step.state && r == step.result
    {
      hide LedgerState.Valid, UniqueIds;
      Inv.TransferPreserves(View(), handle, owner, to);
      var found := Resolve(handle);
      if found.Err? {
        return Err(found.error);
      }
      var h := holdings[found.value];
      if !h.state.Active? || h.subject != owner {
        return Err(ForgedHandle);
      }
      Store(found.value, h.(subject := to));
      return Ok(());
    }

    method Release(handle: Handle, now: Timestamp) returns (r: Answer<()>)
      requires Valid()
      modifies this
      ensures Valid() && identity == old(identity)
      ensures var step := Ops.Release(old(View()), handle, now); View() == step.state && r == step.result
    {
      hide LedgerState.Valid, UniqueIds, LedgerState.HasOccupyingChild;
      Inv.ReleasePreserves(View(), handle, now);
      var found := Resolve(handle);
      if found.Err? {
        return Err(found.error);
      }
      var h := holdings[found.value];
      if h.state.Retired? {
        if h.classId !in classes {
          return Err(UnknownClass);
        }
        if classes[h.classId].releaseIdempotent {
          return Ok(());
        }
        return Err(DoubleRelease);
      }
      if !h.state.Active? || h.target.Policy() != AccountingPolicy {
        return Err(CleanupRequired);
      }
      var busy := HasOccupyingChild(handle.id);
      if busy {
        return Err(TeardownOrder);
      }
      Store(found.value, h.(state := Retired(now)));
      return Ok(());
    }

    // A class without a default keeps the current lease on a default request.
    method RenewedLease(h: Holding, request: LeaseRequest, now: Timestamp) returns (r: Answer<Lease>)
      requires UniqueIds(holdings)
      ensures r == Ops.RenewedLease(View(), h, request, now)
    {
      if h.classId !in classes {
        return Err(UnknownClass);
      }
      var decl := classes[h.classId];
      if request.UseClassDefault? && decl.leaseDuration.None? {
        return Ok(h.lease);
      }
      return request.Resolve(decl.leaseDuration, h.parent.Some?, now);
    }

    method ParentActive(h: Holding) returns (b: bool)
      requires UniqueIds(holdings)
      ensures b == Ops.ParentActive(View(), h)
    {
      if h.parent.None? {
        return false;
      }
      var p := IndexOf(h.parent.value);
      return p.Some? && holdings[p.value].state.Active?;
    }

    method Renew(handle: Handle, request: LeaseRequest, now: Timestamp) returns (r: Answer<Lease>)
      requires Valid()
      modifies this
      ensures Valid() && identity == old(identity)
      ensures var step := Ops.Renew(old(View()), handle, request, now); View() == step.state && r == step.result
    {
      hide LedgerState.Valid, UniqueIds, Ops.RenewedLease, Ops.ParentActive;
      Inv.RenewPreserves(View(), handle, request, now);
      var found := Resolve(handle);
      if found.Err? {
        return Err(found.error);
      }
      var h := holdings[found.value];
      if !h.state.Active? {
        return Err(ForgedHandle);
      }
      var lease := RenewedLease(h, request, now);
      if lease.Err? {
        return Err(lease.error);
      }
      var parentActive := ParentActive(h);
      if lease.value.ParentBound? && !parentActive {
        return Err(InvalidLease);
      }
      Store(found.value, h.(lease := lease.value));
      return lease;
    }
  }
}
