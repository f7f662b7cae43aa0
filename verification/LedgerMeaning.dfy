// What each ledger operation means for its caller: which lease a grant gives and when it falls
// due, who may transfer, what a second release answers, what a finished attempt frees.

module LedgerMeaning {
  import opened Prelude
  import opened Algebra
  import opened Auth
  import opened LedgerTypes
  import opened LedgerState
  import opened LedgerOps
  import opened LedgerInvariant
  import opened PoolRoom
  import opened LedgerFacts
  import Ret = Retirement
  import Runs = LedgerRuns

  // ----- leases -----

  // The lease a request asks for: a duration runs from now, a default is the class's duration.
  predicate Leases(r: LeaseRequest, default: Option<Timestamp>, hasParent: bool, now: Timestamp, lease: Lease) {
    match r
    case ForDuration(d) => lease.Until? && lease.deadline - now == d
    case UntilTime(t) => lease.Until? && lease.deadline == t
    case BindToParent => hasParent && lease.ParentBound?
    case NoExpiry => lease.Unbounded?
    case UseClassDefault =>
      if default.Some? then lease.Until? && lease.deadline - now == default.value
      else if hasParent then lease.ParentBound?
      else lease.Unbounded?
  }

  // How long a request runs, when it asks for a duration at all.
  function Duration(r: LeaseRequest, default: Option<Timestamp>): nat {
    if r.ForDuration? then r.duration else if r.UseClassDefault? && default.Some? then default.value else 0
  }

  // A lease is unique, and refused only for a missing parent or a deadline out of range.
  lemma LeaseExact(r: LeaseRequest, default: Option<Timestamp>, hasParent: bool, now: Timestamp)
    ensures var answer := r.Resolve(default, hasParent, now);
            && (forall lease :: answer == Ok(lease) <==> Leases(r, default, hasParent, now, lease))
            && (answer.Err? <==> (r.BindToParent? && !hasParent) || now + Duration(r, default) > I64_MAX)
            && (answer.Err? ==> answer.error == if r.BindToParent? then InvalidLease else OutOfRange)
  {
  }

  // When an active row falls due: at its deadline, with its parent, or never.
  lemma DueMeans(s: State, id: nat, at: Timestamp)
    requires Valid(s) && id in s.holdings && s.holdings[id].state.Active?
    ensures var h := s.holdings[id];
            id in Ret.DueActive(s.holdings, at) <==>
              match h.lease
              case Until(deadline) => at >= deadline
              case ParentBound => h.parent.Some? && h.parent.value in Ret.DueActive(s.holdings, at)
              case Unbounded => false
  {
    var hs, h := s.holdings, s.holdings[id];
    RowsAndRetirements(s, id);
    Ret.DueStep(hs, at, id);
    if Ret.Due(hs, at, id) {
      var n: nat :| Ret.DueIn(hs, at, id, n);
      if h.lease.ParentBound? && n > 0 {
        assert Ret.DueIn(hs, at, h.parent.value, n - 1);
      }
    }
  }

  lemma RowsAndRetirements(s: State, id: nat)
    requires Valid(s) && id in s.holdings
    ensures RowOk(s, id) && RetirementOk(s, id)
  {
  }

  // ----- grants -----

  predicate ParentFound(s: State, req: GrantRequest) {
    req.parent.Some? ==> req.parent.value.id in s.holdings
  }

  predicate ParentFresh(s: State, req: GrantRequest) {
    req.parent.Some? && req.parent.value.id in s.holdings ==>
      s.holdings[req.parent.value.id].generation == req.parent.value.generation
  }

  predicate ParentLives(s: State, req: GrantRequest) {
    req.parent.Some? && req.parent.value.id in s.holdings ==> s.holdings[req.parent.value.id].state == Active
  }

  // The owner, or whom the owner was instantiated from, holds the parent.
  predicate ParentsOwner(s: State, req: GrantRequest) {
    req.parent.Some? && req.parent.value.id in s.holdings ==>
      var subject := s.holdings[req.parent.value.id].subject;
      subject == req.owner || (req.owner in s.instantiations && s.instantiations[req.owner] == subject)
  }

  ghost predicate NothingOwned(s: State, target: CleanupTarget) {
    forall id, x :: OwnedBy(s.holdings, id, x) ==> !Owns(target, x)
  }

  ghost predicate HasRoom(s: State, key: ResourceKey, claim: Frag)
    requires key in s.pools
  {
    forall ids :: ListsClaims(s.holdings, key, s.nextId, ids) ==>
      Room(s.pools[key], ClaimsOf(s.holdings, ids) + [claim])
  }

  function Default(s: State, key: ResourceKey): Option<Timestamp> {
    if key.classId in s.classes then s.classes[key.classId].leaseDuration else None
  }

  // Why a grant is refused, first reason first.
  ghost function GrantRefusal(s: State, key: ResourceKey, req: GrantRequest,
                              target: CleanupTarget): Option<LedgerError>
    requires Valid(s)
  {
    if key !in s.pools then Some(UnknownPool)
    else if s.pools[key].Tag() != req.claim.Tag() then Some(AlgebraMismatch)
    else if key.classId !in s.classes || !Suits(s.classes[key.classId].cleanup, target) || target.Unresolved? then
      Some(CleanupRequired)
    else if req.generation == "" then Some(InvalidGeneration)
    else if !NothingOwned(s, target) then Some(Conflict)
    else if !ParentFound(s, req) then Some(ForgedHandle)
    else if !ParentFresh(s, req) then Some(StaleGeneration)
    else if !ParentLives(s, req) then Some(ForgedHandle)
    else if !ParentsOwner(s, req) then Some(ParentAuthority)
    else if req.lease.BindToParent? && req.parent.None? then Some(InvalidLease)
    else if req.now + Duration(req.lease, Default(s, key)) > I64_MAX then Some(OutOfRange)
    else if !HasRoom(s, key, req.claim) then Some(Conflict)
    else if s.nextId > I64_MAX then Some(OutOfRange)
    else None
  }

  lemma OwnedExact(s: State, target: CleanupTarget)
    ensures TargetTaken(s.holdings, target) <==> !NothingOwned(s, target)
  {
    hide Owns;
    forall id | id in s.holdings
      ensures target.ConflictsWith(s.holdings[id].target) <==>
              exists x :: Owns(target, x) && Owns(s.holdings[id].target, x)
    {
      ConflictExact(target, s.holdings[id].target);
    }
    if NothingOwned(s, target) {
      forall id | id in s.holdings && s.holdings[id].state.Occupies()
        ensures !target.ConflictsWith(s.holdings[id].target)
      {
        assert forall x :: OwnedBy(s.holdings, id, x) ==> !Owns(target, x);
      }
    }
  }

  lemma ParentExact(s: State, req: GrantRequest)
    ensures CheckParent(s, req) ==
            if !ParentFound(s, req) then Err(ForgedHandle)
            else if !ParentFresh(s, req) then Err(StaleGeneration)
            else if !ParentLives(s, req) then Err(ForgedHandle)
            else if !ParentsOwner(s, req) then Err(ParentAuthority)
            else Ok(())
  {
  }

  lemma RoomExact(s: State, key: ResourceKey, claim: Frag)
    requires Valid(s) && key in s.pools && s.pools[key].Tag() == claim.Tag()
    ensures var all := LiveFrags(s, key) + [claim];
            && Uniform(s.pools[key].Tag(), all)
            && (Fits(s.pools[key], all) <==> HasRoom(s, key, claim))
  {
    hide Room, AuthValid, ListsClaims;
    assert PoolOk(s, key);
    var live := LiveExact(s.holdings, key, s.nextId);
    FitsExact(s.pools[key], LiveFrags(s, key) + [claim]);
    forall ids | ListsClaims(s.holdings, key, s.nextId, ids)
      ensures ids == live
    {
      ListUnique(s.holdings, key, s.nextId, ids, live);
    }
  }

  lemma PoolHasClass(s: State, key: ResourceKey)
    requires Valid(s) && key in s.pools
    ensures key.classId in s.classes
  {
    assert PoolOk(s, key);
  }

  lemma AdmitExact(s: State, key: ResourceKey, req: GrantRequest, target: CleanupTarget)
    requires Valid(s)
    ensures match GrantRefusal(s, key, req, target)
            case Some(e) => AdmitGrant(s, key, req, target) == Err(e)
            case None =>
              && AdmitGrant(s, key, req, target).Ok?
              && Leases(req.lease, Default(s, key), req.parent.Some?, req.now, AdmitGrant(s, key, req, target).value)
  {
    hide Valid, TargetTaken, NothingOwned, CheckParent, ParentFound, ParentFresh, ParentLives, ParentsOwner, Suits;
    hide HasRoom, Fits, Leases, Uniform;
    if key in s.pools && s.pools[key].Tag() == req.claim.Tag() {
      PoolHasClass(s, key);
      SuitsExact(s.classes[key.classId].cleanup, target);
      OwnedExact(s, target);
      ParentExact(s, req);
      LeaseExact(req.lease, Default(s, key), req.parent.Some?, req.now);
      RoomExact(s, key, req.claim);
    }
  }

  // A grant is refused for its first reason and changes nothing, or it adds exactly one active
  // row under the next id, with the requested claim, parent and target and the lease asked for.
  lemma GrantExact(s: State, key: ResourceKey, req: GrantRequest, target: CleanupTarget)
    requires Valid(s)
    ensures var step := Grant(s, key, req, target);
            match GrantRefusal(s, key, req, target)
            case Some(e) => step == Step(s, Err(e))
            case None =>
              step.result == Ok(Handle(s.nextId, req.generation)) && GrantedRow(s, step.state, key, req, target)
  {
    hide GrantRefusal, AdmitGrant, Leases, Invariant;
    AdmitExact(s, key, req, target);
  }

  ghost predicate GrantedRow(s: State, t: State, key: ResourceKey, req: GrantRequest, target: CleanupTarget) {
    && s.nextId !in s.holdings && s.nextId in t.holdings && t.nextId == s.nextId + 1
    && t == s.(holdings := s.holdings[s.nextId := t.holdings[s.nextId]], nextId := s.nextId + 1)
    && var h := t.holdings[s.nextId];
       && h.id == s.nextId && h.subject == req.owner && h.generation == req.generation
       && h.classId == key.classId && h.instance == key.instance && h.frag == req.claim && h.target == target
       && h.state == Active && h.acquiredAt == req.now
       && h.parent == (if req.parent.Some? then Some(req.parent.value.id) else None)
       && Leases(req.lease, Default(s, key), req.parent.Some?, req.now, h.lease)
  }

  // Right after a grant the new row is due at `at` exactly when its lease has run out by then:
  // a duration counts from the grant, and a row bound to its parent is due with it.
  lemma GrantDue(s: State, key: ResourceKey, req: GrantRequest, target: CleanupTarget, at: Timestamp)
    requires Valid(s) && Grant(s, key, req, target).result.Ok?
    ensures var hs := Grant(s, key, req, target).state.holdings;
            s.nextId in Ret.DueActive(hs, at) <==>
              match req.lease
              case ForDuration(d) => at >= req.now + d
              case UntilTime(t) => at >= t
              case BindToParent => req.parent.value.id in Ret.DueActive(hs, at)
              case NoExpiry => false
              case UseClassDefault =>
                if Default(s, key).Some? then at >= req.now + Default(s, key).value
                else req.parent.Some? && req.parent.value.id in Ret.DueActive(hs, at)
  {
    hide Valid, Ret.DueActive, GrantRefusal, Grant;
    GrantExact(s, key, req, target);
    GrantPreserves(s, key, req, target);
    var t := Grant(s, key, req, target).state;
    DueMeans(t, s.nextId, at);
  }

  // ----- renewals -----

  ghost function RenewRefusal(s: State, handle: Handle, req: LeaseRequest, now: Timestamp): Option<LedgerError>
    requires Valid(s)
  {
    if handle.id !in s.holdings then Some(ForgedHandle)
    else
      var h := s.holdings[handle.id];
      if h.generation != handle.generation then Some(StaleGeneration)
      else if h.state != Active then Some(ForgedHandle)
      else if req.BindToParent? && h.parent.None? then Some(InvalidLease)
      else if now + Duration(req, Default(s, h.Key())) > I64_MAX then Some(OutOfRange)
      else if req.BindToParent? && s.holdings[ParentOf(s, handle.id)].state != Active then Some(InvalidLease)
      else None
  }

  ghost function ParentOf(s: State, id: nat): (p: nat)
    requires Valid(s) && id in s.holdings && s.holdings[id].parent.Some?
    ensures p in s.holdings && s.holdings[id].parent == Some(p)
  {
    RowsAndRetirements(s, id);
    s.holdings[id].parent.value
  }

  // A renewal is refused for its first reason and changes nothing, or it gives the row the lease
  // asked for and changes nothing else; a class without a default keeps the old lease.
  lemma RenewExact(s: State, handle: Handle, req: LeaseRequest, now: Timestamp)
    requires Valid(s)
    ensures var step := Renew(s, handle, req, now);
            match RenewRefusal(s, handle, req, now)
            case Some(e) => step == Step(s, Err(e))
            case None =>
              && step.result.Ok?
              && var h := s.holdings[handle.id];
                 && step.state == s.(holdings := s.holdings[handle.id := h.(lease := step.result.value)])
                 && (if req.UseClassDefault? && Default(s, h.Key()).None? then step.result.value == h.lease
                     else Leases(req, Default(s, h.Key()), h.parent.Some?, now, step.result.value))
  {
    hide Valid, Leases;
    if handle.id in s.holdings {
      var h := s.holdings[handle.id];
      RowsAndRetirements(s, handle.id);
      LeaseExact(req, Default(s, h.Key()), h.parent.Some?, now);
      LeaseShape(req, Default(s, h.Key()), h.parent.Some?, now);
    }
  }

  lemma LeaseShape(r: LeaseRequest, default: Option<Timestamp>, hasParent: bool, now: Timestamp)
    ensures forall lease :: Leases(r, default, hasParent, now, lease) && lease.ParentBound? ==>
              hasParent && (r.BindToParent? || (r.UseClassDefault? && default.None?))
    ensures forall lease :: Leases(r, default, hasParent, now, lease) && r.BindToParent? ==> lease.ParentBound?
  {
  }

  // After a renewal for a duration the row is due exactly from that long after the renewal.
  lemma RenewDue(s: State, handle: Handle, d: Timestamp, now: Timestamp, at: Timestamp)
    requires Valid(s) && Renew(s, handle, ForDuration(d), now).result.Ok?
    ensures var hs := Renew(s, handle, ForDuration(d), now).state.holdings;
            handle.id in Ret.DueActive(hs, at) <==> at >= now + d
  {
    hide Valid, Ret.DueActive, RenewRefusal, Renew;
    RenewExact(s, handle, ForDuration(d), now);
    RenewPreserves(s, handle, ForDuration(d), now);
    Renewed(s, handle, ForDuration(d), now);
    DueMeans(Renew(s, handle, ForDuration(d), now).state, handle.id, at);
  }

  lemma Renewed(s: State, handle: Handle, req: LeaseRequest, now: Timestamp)
    requires Renew(s, handle, req, now).result.Ok?
    ensures handle.id in s.holdings && s.holdings[handle.id].state.Active?
  {
  }
}
