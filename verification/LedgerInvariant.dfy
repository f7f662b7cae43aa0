// Every ledger operation preserves the full invariant and moves the state only forward.

module LedgerInvariant {
  import opened Prelude
  import opened Algebra
  import opened Auth
  import opened LedgerTypes
  import opened LedgerState
  import opened LedgerOps

  // ----- what no operation ever undoes -----

  predicate TaskEvolves(a: CleanupRecord, b: CleanupRecord) {
    && a.id == b.id && a.key == b.key && a.holding == b.holding
    && (a.attempts < b.attempts || (a.attempts == b.attempts && (b.state.Running? ==> a == b)))
    && (a.state.Done? ==> a == b)
  }

  predicate RowEvolves(a: Holding, b: Holding) {
    a.SameIdentity(b) && a.state.ForwardTo(b.state)
  }

  predicate Evolves(s: State, t: State) {
    && s.nextId <= t.nextId
    && (forall c :: c in s.classes ==> c in t.classes && t.classes[c] == s.classes[c])
    && (forall k :: k in s.pools ==> k in t.pools && t.pools[k].Tag() == s.pools[k].Tag())
    && (forall id :: id in s.holdings ==> id in t.holdings && RowEvolves(s.holdings[id], t.holdings[id]))
    && (forall id :: id in s.cleanups ==> id in t.cleanups && TaskEvolves(s.cleanups[id], t.cleanups[id]))
    && (forall c :: c in s.instantiations ==> c in t.instantiations)
  }

  lemma EvolvesReflexive(s: State)
    ensures Evolves(s, s)
  {
  }

  lemma EvolvesTransitive(s: State, t: State, u: State)
    requires Evolves(s, t) && Evolves(t, u)
    ensures Evolves(s, u)
  {
  }

  // ----- frame lemmas -----

  // Same rows and parents: the forest is unchanged.
  predicate SameParents(hs: Rows, ks: Rows) {
    forall id :: id in hs ==> id in ks && ks[id].parent == hs[id].parent
  }

  lemma {:induction false} RootedFrame(hs: Rows, ks: Rows, id: nat, n: nat)
    requires SameParents(hs, ks) && RootedIn(hs, id, n)
    ensures RootedIn(ks, id, n)
    decreases n
  {
    if hs[id].parent.Some? {
      RootedFrame(hs, ks, hs[id].parent.value, n - 1);
    }
  }

  lemma ForestFrame(hs: Rows, ks: Rows)
    requires SameParents(hs, ks) && Forest(hs) && ks.Keys == hs.Keys
    ensures Forest(ks)
  {
    forall id | id in ks
      ensures Rooted(ks, id)
    {
      assert Rooted(hs, id);
      var n: nat :| RootedIn(hs, id, n);
      RootedFrame(hs, ks, id, n);
    }
  }

  // `ks` charges no more than `hs`, row by row.
  predicate ChargesShrink(hs: Rows, ks: Rows) {
    && ks.Keys == hs.Keys
    && forall id :: id in hs ==>
         && ks[id].frag == hs[id].frag && ks[id].Key() == hs[id].Key()
         && (ks[id].state.Occupies() ==> hs[id].state.Occupies())
  }

  lemma {:induction false} LiveShrinks(hs: Rows, ks: Rows, key: ResourceKey, n: nat)
    requires ChargesShrink(hs, ks)
    ensures multiset(LiveUpTo(ks, key, n)) <= multiset(LiveUpTo(hs, key, n))
  {
    if n > 0 {
      LiveShrinks(hs, ks, key, n - 1);
    }
  }

  lemma {:induction false} LiveFrame(hs: Rows, ks: Rows, key: ResourceKey, n: nat)
    requires forall id :: id < n ==> ((id in hs && Charges(hs[id], key)) <==> (id in ks && Charges(ks[id], key)))
    requires forall id :: id < n && id in hs && id in ks ==> ks[id].frag == hs[id].frag
    ensures LiveUpTo(ks, key, n) == LiveUpTo(hs, key, n)
  {
    if n > 0 {
      LiveFrame(hs, ks, key, n - 1);
    }
  }

  lemma {:induction false} LiveNone(hs: Rows, key: ResourceKey, n: nat)
    requires forall id :: id in hs ==> !Charges(hs[id], key)
    ensures LiveUpTo(hs, key, n) == []
  {
    if n > 0 {
      LiveNone(hs, key, n - 1);
    }
  }

  // Rows stay, and each keeps its identity while its state moves forward.
  predicate RowsForward(hs: Rows, ks: Rows) {
    && ks.Keys == hs.Keys
    && forall id {:trigger ks[id]} :: id in hs ==> RowEvolves(hs[id], ks[id])
  }

  lemma PoolsShrink(s: State, t: State)
    requires PoolsOk(s)
    requires t.pools == s.pools && t.classes == s.classes && t.nextId == s.nextId
    requires ChargesShrink(s.holdings, t.holdings)
    ensures PoolsOk(t)
  {
    forall key | key in t.pools
      ensures PoolOk(t, key)
    {
      assert PoolOk(s, key);
      LiveShrinks(s.holdings, t.holdings, key, s.nextId);
      FitsSubset(s.pools[key], LiveFrags(s, key), LiveFrags(t, key));
    }
  }

  lemma ConflictsShrink(hs: Rows, ks: Rows)
    requires NoTargetConflicts(hs) && RowsForward(hs, ks)
    ensures NoTargetConflicts(ks)
  {
    forall a: nat, b: nat
      ensures !Clash(ks, a, b)
    {
      assert !Clash(hs, a, b);
    }
  }

  // Moving rows forward keeps the forest, the pools and the target exclusivity.
  lemma ForwardKeepsStructure(s: State, t: State)
    requires Forest(s.holdings) && PoolsOk(s) && NoTargetConflicts(s.holdings) && Numbered(s)
    requires t.pools == s.pools && t.classes == s.classes && t.nextId == s.nextId
    requires RowsForward(s.holdings, t.holdings)
    ensures Forest(t.holdings) && PoolsOk(t) && NoTargetConflicts(t.holdings) && Numbered(t)
  {
    ForestFrame(s.holdings, t.holdings);
    PoolsShrink(s, t);
    ConflictsShrink(s.holdings, t.holdings);
  }

  // Keys of surviving tasks do not change.
  lemma KeysFrame(a: map<nat, CleanupRecord>, b: map<nat, CleanupRecord>)
    requires KeysUnique(a) && b.Keys == a.Keys
    requires forall id {:trigger b[id]} :: id in b ==> b[id].key == a[id].key
    ensures KeysUnique(b)
  {
    forall x: nat, y: nat
      ensures !SharedKey(b, x, y)
    {
      assert !SharedKey(a, x, y);
    }
  }

  // An active holding has no cleanup record.
  lemma ActiveHasNoTask(s: State, id: nat)
    requires Invariant(s) && id in s.holdings && s.holdings[id].state.Active?
    ensures id !in s.cleanups
  {
    assert id in s.cleanups ==> TaskOk(s, id);
  }

  // ----- classes and pools -----

  lemma RegisterClassPreserves(s: State, decl: ClassDecl)
    requires Valid(s)
    ensures var t := RegisterClass(s, decl).state; Valid(t) && Evolves(s, t)
  {
    var t := RegisterClass(s, decl).state;
    if t != s {
      NewClassKeepsRows(s, decl);
    }
  }

  lemma NewClassKeepsRows(s: State, decl: ClassDecl)
    requires RowsOk(s) && RetirementsOk(s) && TasksOk(s) && PoolsOk(s) && decl.classId !in s.classes
    ensures var t := s.(classes := s.classes[decl.classId := decl]);
            RowsOk(t) && RetirementsOk(t) && TasksOk(t) && PoolsOk(t)
  {
    var t := s.(classes := s.classes[decl.classId := decl]);
    forall id | id in t.holdings
      ensures RowOk(t, id) && RetirementOk(t, id)
    {
      assert RowOk(s, id) && RetirementOk(s, id);
    }
    forall id | id in t.cleanups
      ensures TaskOk(t, id)
    {
      assert TaskOk(s, id);
    }
    forall k | k in t.pools
      ensures PoolOk(t, k)
    {
      assert PoolOk(s, k);
      assert LiveFrags(t, k) == LiveFrags(s, k);
    }
  }

  // A pool whose live fragments fit may be added, or have its capacity changed.
  lemma PoolChangeKeepsRows(s: State, key: ResourceKey, capacity: ValidFrag)
    requires RowsOk(s) && RetirementsOk(s) && TasksOk(s) && PoolsOk(s)
    requires key.classId in s.classes && s.classes[key.classId].algebra == capacity.Tag()
    requires Fits(capacity, LiveFrags(s, key))
    ensures var t := s.(pools := s.pools[key := capacity]);
            RowsOk(t) && RetirementsOk(t) && TasksOk(t) && PoolsOk(t)
  {
    var t := s.(pools := s.pools[key := capacity]);
    forall id | id in t.holdings
      ensures RowOk(t, id) && RetirementOk(t, id)
    {
      assert RowOk(s, id) && RetirementOk(s, id);
    }
    forall id | id in t.cleanups
      ensures TaskOk(t, id)
    {
      assert TaskOk(s, id);
    }
    forall k | k in t.pools
      ensures PoolOk(t, k)
    {
      assert LiveFrags(t, k) == LiveFrags(s, k);
      assert k != key ==> PoolOk(s, k);
    }
  }

  lemma CreatePoolPreserves(s: State, key: ResourceKey, capacity: ValidFrag)
    requires Valid(s)
    ensures var t := CreatePool(s, key, capacity).state; Valid(t) && Evolves(s, t)
  {
    if CreatePool(s, key, capacity).state != s {
      forall id | id in s.holdings
        ensures !Charges(s.holdings[id], key)
      {
        assert RowOk(s, id);
      }
      LiveNone(s.holdings, key, s.nextId);
      PoolChangeValid(s, key, capacity);
    }
  }

  lemma ResizePoolPreserves(s: State, key: ResourceKey, capacity: ValidFrag)
    requires Valid(s)
    ensures var t := ResizePool(s, key, capacity).state; Valid(t) && Evolves(s, t)
  {
    if ResizePool(s, key, capacity).result.Ok? {
      assert PoolOk(s, key);
      PoolChangeValid(s, key, capacity);
    }
  }

  lemma SettledRowsKeep(s: State, key: ResourceKey, now: Timestamp)
    requires RowsOk(s) && RetirementsOk(s) && Settleable(s, key)
    ensures var t := s.(holdings := SettledRows(s.holdings, key, now));
            RowsOk(t) && RetirementsOk(t)
  {
    var t := s.(holdings := SettledRows(s.holdings, key, now));
    var hs, ks := s.holdings, t.holdings;
    forall id | id in ks
      ensures RowOk(t, id) && RetirementOk(t, id)
    {
      assert RowOk(s, id) && RetirementOk(s, id);
      if ks[id].state.Occupies() && ks[id].parent.Some? {
        var p := ks[id].parent.value;
        assert ChildOf(hs, id, p) && Occupying(hs, id) && Occupying(hs, p);
        assert !Charges(hs[p], key);
      }
    }
  }

  lemma SettledTasksKeep(s: State, key: ResourceKey, now: Timestamp)
    requires Invariant(s) && Settleable(s, key)
    ensures TasksOk(s.(holdings := SettledRows(s.holdings, key, now)))
  {
    var t := s.(holdings := SettledRows(s.holdings, key, now));
    forall id | id in t.cleanups
      ensures TaskOk(t, id)
    {
      assert TaskOk(s, id);
      assert !Charges(s.holdings[id], key);
    }
  }

  lemma SettlePoolPreserves(s: State, key: ResourceKey, now: Timestamp)
    requires Valid(s)
    ensures var t := SettlePool(s, key, now).state; Valid(t) && Evolves(s, t)
  {
    if SettlePool(s, key, now).result.Ok? {
      var mid := s.(holdings := SettledRows(s.holdings, key, now));
      SettledValid(s, key, now);
      assert PoolOk(s, key);
      PoolChangeValid(mid, key, CountFrag(Value(0)));
      EvolvesTransitive(s, mid, SettlePool(s, key, now).state);
    }
  }

  lemma SettledValid(s: State, key: ResourceKey, now: Timestamp)
    requires Valid(s) && Settleable(s, key)
    ensures var t := s.(holdings := SettledRows(s.holdings, key, now));
            Valid(t) && Evolves(s, t) && LiveFrags(t, key) == []
  {
    var t := s.(holdings := SettledRows(s.holdings, key, now));
    ForwardKeepsStructure(s, t);
    SettledRowsKeep(s, key, now);
    SettledTasksKeep(s, key, now);
    LiveNone(t.holdings, key, s.nextId);
  }

  lemma PoolChangeValid(s: State, key: ResourceKey, capacity: ValidFrag)
    requires Valid(s) && key.classId in s.classes && s.classes[key.classId].algebra == capacity.Tag()
    requires Fits(capacity, LiveFrags(s, key)) && (key in s.pools ==> s.pools[key].Tag() == capacity.Tag())
    ensures var t := s.(pools := s.pools[key := capacity]); Valid(t) && Evolves(s, t)
  {
    PoolChangeKeepsRows(s, key, capacity);
  }

  // ----- grants -----

  lemma GrantKeepsRows(s: State, key: ResourceKey, req: GrantRequest, target: CleanupTarget)
    requires RowsOk(s) && RetirementsOk(s) && PoolsOk(s) && Numbered(s) && AdmitGrant(s, key, req, target).Ok?
    ensures var t := Grant(s, key, req, target).state; RowsOk(t) && RetirementsOk(t)
  {
    var t := Grant(s, key, req, target).state;
    assert PoolOk(s, key);
    forall id | id in t.holdings
      ensures RowOk(t, id) && RetirementOk(t, id)
    {
      assert id != s.nextId ==> RowOk(s, id) && RetirementOk(s, id);
    }
  }

  lemma GrantKeepsTasks(s: State, key: ResourceKey, req: GrantRequest, target: CleanupTarget)
    requires TasksOk(s) && NoTargetConflicts(s.holdings) && Numbered(s) && AdmitGrant(s, key, req, target).Ok?
    ensures var t := Grant(s, key, req, target).state; TasksOk(t) && NoTargetConflicts(t.holdings)
  {
    var t := Grant(s, key, req, target).state;
    forall id | id in t.cleanups
      ensures TaskOk(t, id)
    {
      assert TaskOk(s, id);
    }
    forall a: nat, b: nat
      ensures !Clash(t.holdings, a, b)
    {
      assert !Clash(s.holdings, a, b);
      if a in t.holdings && b in t.holdings {
        ConflictSymmetric(t.holdings[a].target, t.holdings[b].target);
      }
    }
  }

  lemma GrantKeepsPools(s: State, key: ResourceKey, req: GrantRequest, target: CleanupTarget)
    requires PoolsOk(s) && Numbered(s) && AdmitGrant(s, key, req, target).Ok?
    ensures PoolsOk(Grant(s, key, req, target).state)
  {
    var t := Grant(s, key, req, target).state;
    forall k | k in t.pools
      ensures PoolOk(t, k)
    {
      assert PoolOk(s, k);
      LiveFrame(s.holdings, t.holdings, k, s.nextId);
      assert LiveFrags(t, k) == if k == key then LiveFrags(s, k) + [req.claim] else LiveFrags(s, k);
    }
  }

  lemma GrantKeepsForest(s: State, key: ResourceKey, req: GrantRequest, target: CleanupTarget)
    requires Forest(s.holdings) && Numbered(s) && AdmitGrant(s, key, req, target).Ok?
    ensures Forest(Grant(s, key, req, target).state.holdings)
  {
    var hs, ks := s.holdings, Grant(s, key, req, target).state.holdings;
    forall id | id in ks
      ensures Rooted(ks, id)
    {
      if id in hs {
        assert Rooted(hs, id);
        var n: nat :| RootedIn(hs, id, n);
        RootedFrame(hs, ks, id, n);
      } else if ks[id].parent.Some? {
        var p := ks[id].parent.value;
        assert Rooted(hs, p);
        var n: nat :| RootedIn(hs, p, n);
        RootedFrame(hs, ks, p, n);
        assert RootedIn(ks, id, n + 1);
      } else {
        assert RootedIn(ks, id, 0);
      }
    }
  }

  lemma GrantPreserves(s: State, key: ResourceKey, req: GrantRequest, target: CleanupTarget)
    requires Valid(s)
    ensures var t := Grant(s, key, req, target).state; Valid(t) && Evolves(s, t)
  {
    if AdmitGrant(s, key, req, target).Ok? {
      GrantKeepsRows(s, key, req, target);
      GrantKeepsTasks(s, key, req, target);
      GrantKeepsPools(s, key, req, target);
      GrantKeepsForest(s, key, req, target);
    }
  }

  // ----- single-row updates -----

  // Rewriting the subject or the lease of an active row.
  lemma RelabelKeepsRows(s: State, id: nat, h: Holding)
    requires RowsOk(s) && RetirementsOk(s) && TasksOk(s) && id in s.holdings && s.holdings[id].state.Active?
    requires s.holdings[id].SameIdentity(h) && h.state.Active?
    requires h.lease.ParentBound? ==> h.lease == s.holdings[id].lease || ParentActive(s, h)
    ensures var t := SetRow(s, id, h); RowsOk(t) && RetirementsOk(t) && TasksOk(t)
  {
    var t := SetRow(s, id, h);
    assert RowOk(s, id) && RetirementOk(s, id);
    forall k | k in t.holdings
      ensures RowOk(t, k) && RetirementOk(t, k)
    {
      assert RowOk(s, k) && RetirementOk(s, k);
    }
    forall k | k in t.cleanups
      ensures TaskOk(t, k)
    {
      assert TaskOk(s, k);
    }
  }

  lemma RelabelPreserves(s: State, id: nat, h: Holding)
    requires Valid(s) && id in s.holdings && s.holdings[id].state.Active?
    requires s.holdings[id].SameIdentity(h) && h.state.Active?
    requires h.lease.ParentBound? ==> h.lease == s.holdings[id].lease || ParentActive(s, h)
    ensures Valid(SetRow(s, id, h)) && Evolves(s, SetRow(s, id, h))
  {
    RelabelKeepsRows(s, id, h);
    ForwardKeepsStructure(s, SetRow(s, id, h));
  }

  lemma TransferPreserves(s: State, handle: Handle, owner: Name, to: Name)
    requires Valid(s)
    ensures var t := Transfer(s, handle, owner, to).state; Valid(t) && Evolves(s, t)
  {
    hide Valid, Evolves;
    EvolvesReflexive(s);
    if Transfer(s, handle, owner, to).result.Ok? {
      RelabelPreserves(s, handle.id, s.holdings[handle.id].(subject := to));
    }
  }

  lemma RenewPreserves(s: State, handle: Handle, req: LeaseRequest, now: Timestamp)
    requires Valid(s)
    ensures var t := Renew(s, handle, req, now).state; Valid(t) && Evolves(s, t)
  {
    hide Valid, Evolves;
    EvolvesReflexive(s);
    var step := Renew(s, handle, req, now);
    if step.result.Ok? {
      RelabelPreserves(s, handle.id, s.holdings[handle.id].(lease := step.result.value));
    }
  }

  // Retiring a row with no occupying child keeps the other rows legal.
  lemma RetiredRowKeepsRows(s: State, id: nat, now: Timestamp)
    requires RowsOk(s) && id in s.holdings && !HasOccupyingChild(s.holdings, id)
    ensures RowsOk(SetRow(s, id, s.holdings[id].(state := Retired(now))))
  {
    var t := SetRow(s, id, s.holdings[id].(state := Retired(now)));
    forall k | k in t.holdings
      ensures RowOk(t, k)
    {
      assert RowOk(s, k) && RowOk(s, id);
      assert ChildOf(s.holdings, k, id) ==> !Occupying(s.holdings, k);
    }
  }

  lemma ReleaseKeepsTasks(s: State, id: nat, now: Timestamp)
    requires RetirementsOk(s) && TasksOk(s) && id in s.holdings && s.holdings[id].state.Active?
    requires s.holdings[id].target.AccountingOnly? && !HasOccupyingChild(s.holdings, id)
    ensures var t := SetRow(s, id, s.holdings[id].(state := Retired(now))); RetirementsOk(t) && TasksOk(t)
  {
    var t := SetRow(s, id, s.holdings[id].(state := Retired(now)));
    forall k | k in t.holdings
      ensures RetirementOk(t, k)
    {
      assert RetirementOk(s, k) && RetirementOk(s, id);
      assert ChildOf(s.holdings, k, id) ==> !Occupying(s.holdings, k);
    }
    forall k | k in t.cleanups
      ensures TaskOk(t, k)
    {
      assert TaskOk(s, k);
    }
  }

  lemma ReleasePreserves(s: State, handle: Handle, now: Timestamp)
    requires Valid(s)
    ensures var t := Release(s, handle, now).state; Valid(t) && Evolves(s, t)
  {
    hide Valid, Evolves;
    EvolvesReflexive(s);
    if Release(s, handle, now).state != s {
      RetireAccountingPreserves(s, handle.id, now);
    }
  }

  lemma RetireAccountingPreserves(s: State, id: nat, now: Timestamp)
    requires Valid(s) && id in s.holdings && s.holdings[id].state.Active?
    requires s.holdings[id].target.AccountingOnly? && !HasOccupyingChild(s.holdings, id)
    ensures var t := SetRow(s, id, s.holdings[id].(state := Retired(now))); Valid(t) && Evolves(s, t)
  {
    RetiredRowKeepsRows(s, id, now);
    ReleaseKeepsTasks(s, id, now);
    ForwardKeepsStructure(s, SetRow(s, id, s.holdings[id].(state := Retired(now))));
  }

  // ----- cleanup attempts -----

  // Rewriting an open task, its holding staying in Retiring.
  lemma TaskUpdateKeeps(s: State, id: nat, task: CleanupRecord)
    requires Valid(s) && id in s.cleanups && !s.cleanups[id].state.Done? && !task.state.Done?
    requires TaskEvolves(s.cleanups[id], task) && task.attempts <= I64_MAX
    requires task.state.Running? ==> task.attempts > 0
    ensures Valid(s.(cleanups := s.cleanups[id := task])) && Evolves(s, s.(cleanups := s.cleanups[id := task]))
  {
    var t := s.(cleanups := s.cleanups[id := task]);
    TaskUpdateKeepsRows(s, id, task);
    KeysFrame(s.cleanups, t.cleanups);
    ForwardKeepsStructure(s, t);
  }

  lemma TaskUpdateKeepsRows(s: State, id: nat, task: CleanupRecord)
    requires RowsOk(s) && RetirementsOk(s) && TasksOk(s)
    requires id in s.cleanups && !s.cleanups[id].state.Done? && !task.state.Done?
    requires TaskEvolves(s.cleanups[id], task) && task.attempts <= I64_MAX
    requires task.state.Running? ==> task.attempts > 0
    ensures var t := s.(cleanups := s.cleanups[id := task]); RowsOk(t) && RetirementsOk(t) && TasksOk(t)
  {
    var t := s.(cleanups := s.cleanups[id := task]);
    forall k | k in t.holdings
      ensures RowOk(t, k) && RetirementOk(t, k)
    {
      assert RowOk(s, k) && RetirementOk(s, k);
    }
    forall k | k in t.cleanups
      ensures TaskOk(t, k)
    {
      assert TaskOk(s, k) && TaskOk(s, id);
    }
  }

  lemma ClaimPreserves(s: State, id: nat, worker: HostWitness, now: Timestamp)
    requires Valid(s)
    ensures var t := Claim(s, id, worker, now).state; Valid(t) && Evolves(s, t)
  {
    hide Valid, Evolves;
    var step := Claim(s, id, worker, now);
    EvolvesReflexive(s);
    if step.result.Ok? && step.result.value.Some? {
      TaskUpdateKeeps(s, id, step.state.cleanups[id]);
    }
  }

  lemma AbandonPreserves(s: State, observed: CleanupRecord, now: Timestamp)
    requires Valid(s)
    ensures var t := Abandon(s, observed, now).state; Valid(t) && Evolves(s, t)
  {
    var step := Abandon(s, observed, now);
    if step.result.Ok? {
      assert TaskOk(s, observed.id);
      TaskUpdateKeeps(s, observed.id, step.state.cleanups[observed.id]);
    }
  }

  lemma DischargeKeepsTasks(s: State, work: CleanupWork, outcome: CleanupOutcome, now: Timestamp)
    requires RowsOk(s) && RetirementsOk(s) && TasksOk(s)
    requires Finish(s, work, outcome, now).result.Ok? && outcome.Discharges()
    ensures var t := Finish(s, work, outcome, now).state; RetirementsOk(t) && TasksOk(t)
  {
    var t := Finish(s, work, outcome, now).state;
    var id := work.task.id;
    assert TaskOk(s, id) && RowOk(s, id) && RetirementOk(s, id);
    forall k | k in t.holdings
      ensures RetirementOk(t, k)
    {
      assert RowOk(s, k) && RetirementOk(s, k);
      assert ChildOf(s.holdings, k, id) ==> !Occupying(s.holdings, k);
    }
    forall k | k in t.cleanups
      ensures TaskOk(t, k)
    {
      assert TaskOk(s, k);
    }
  }

  lemma DischargeValid(s: State, work: CleanupWork, outcome: CleanupOutcome, now: Timestamp)
    requires Valid(s) && Finish(s, work, outcome, now).result.Ok? && outcome.Discharges()
    ensures Valid(Finish(s, work, outcome, now).state)
  {
    var t := Finish(s, work, outcome, now).state;
    var id := work.task.id;
    assert TaskOk(s, id) && RowOk(s, id);
    RetiredRowKeepsRows(s, id, now);
    DischargeKeepsTasks(s, work, outcome, now);
    KeysFrame(s.cleanups, t.cleanups);
    ForwardKeepsStructure(s, t);
    RowsIgnoreTasks(SetRow(s, id, s.holdings[id].(state := Retired(now))), t);
  }

  lemma FinishEvolves(s: State, work: CleanupWork, outcome: CleanupOutcome, now: Timestamp)
    requires TasksOk(s) && RowsOk(s)
    ensures Evolves(s, Finish(s, work, outcome, now).state)
  {
    if Finish(s, work, outcome, now).result.Ok? {
      assert TaskOk(s, work.task.id) && RowOk(s, work.task.id);
    }
  }

  lemma FinishPreserves(s: State, work: CleanupWork, outcome: CleanupOutcome, now: Timestamp)
    requires Valid(s)
    ensures var t := Finish(s, work, outcome, now).state; Valid(t) && Evolves(s, t)
  {
    FinishEvolves(s, work, outcome, now);
    hide Valid, Evolves;
    if Finish(s, work, outcome, now).result.Ok? {
      if outcome.Discharges() {
        DischargeValid(s, work, outcome, now);
      } else {
        OpenOutcomeValid(s, work, outcome, now);
      }
    }
  }

  lemma OpenOutcomeValid(s: State, work: CleanupWork, outcome: CleanupOutcome, now: Timestamp)
    requires Valid(s) && Finish(s, work, outcome, now).result.Ok? && !outcome.Discharges()
    ensures Valid(Finish(s, work, outcome, now).state)
  {
    assert TaskOk(s, work.task.id);
    TaskUpdateKeeps(s, work.task.id, Finish(s, work, outcome, now).state.cleanups[work.task.id]);
  }

  lemma RowsIgnoreTasks(s: State, t: State)
    requires RowsOk(s) && t.holdings == s.holdings && t.classes == s.classes && t.pools == s.pools
    ensures RowsOk(t)
  {
    forall id | id in t.holdings
      ensures RowOk(t, id)
    {
      assert RowOk(s, id);
    }
  }

  lemma TasksIgnoreInstantiations(s: State, t: State)
    requires RetirementsOk(s) && TasksOk(s)
    requires t == s.(instantiations := t.instantiations)
    ensures RetirementsOk(t) && TasksOk(t)
  {
    forall id | id in t.holdings
      ensures RetirementOk(t, id)
    {
      assert RetirementOk(s, id);
    }
    forall id | id in t.cleanups
      ensures TaskOk(t, id)
    {
      assert TaskOk(s, id);
    }
  }
}
