// The ledger operations as transitions of the abstract state.

module LedgerOps {
  import opened Prelude
  import opened Algebra
  import opened Auth
  import opened LedgerTypes
  import opened LedgerState

  datatype Step<T> = Step(state: State, result: Result<T, LedgerError>)

  function Resolve(s: State, handle: Handle): Result<Holding, LedgerError> {
    if handle.id !in s.holdings then Err(ForgedHandle)
    else if s.holdings[handle.id].generation != handle.generation then Err(StaleGeneration)
    else Ok(s.holdings[handle.id])
  }

  function SetRow(s: State, id: nat, h: Holding): State {
    s.(holdings := s.holdings[id := h])
  }

  // ----- classes and pools -----

  function RegisterClass(s: State, decl: ClassDecl): Step<()> {
    if !decl.Registrable() then Step(s, Err(InvalidCleanup))
    else if decl.classId in s.classes then
      if s.classes[decl.classId] != decl then Step(s, Err(ClassConflict)) else Step(s, Ok(()))
    else Step(s.(classes := s.classes[decl.classId := decl]), Ok(()))
  }

  function CreatePool(s: State, key: ResourceKey, capacity: ValidFrag): Step<()> {
    if key.classId !in s.classes then Step(s, Err(UnknownClass))
    else if s.classes[key.classId].algebra != capacity.Tag() then Step(s, Err(AlgebraMismatch))
    else if key in s.pools then
      if s.pools[key] == capacity then Step(s, Ok(())) else Step(s, Err(PoolExists))
    else Step(s.(pools := s.pools[key := capacity]), Ok(()))
  }

  // A pool reference carries the algebra it was resolved with.
  function CheckPool(s: State, key: ResourceKey, tag: AlgebraTag): Result<Frag, LedgerError> {
    if key !in s.pools then Err(UnknownPool)
    else if s.pools[key].Tag() != tag then Err(AlgebraMismatch)
    else Ok(s.pools[key])
  }

  function ResizePool(s: State, key: ResourceKey, capacity: ValidFrag): Step<()> {
    match CheckPool(s, key, capacity.Tag())
    case Err(e) => Step(s, Err(e))
    case Ok(_) =>
      if !Uniform(capacity.Tag(), LiveFrags(s, key)) then Step(s, Err(AlgebraMismatch))
      else if !Fits(capacity, LiveFrags(s, key)) then Step(s, Err(Conflict))
      else Step(s.(pools := s.pools[key := capacity]), Ok(()))
  }

  // Every row charged to the pool is an active accounting row whose occupying
  // children are charged to the same pool.
  predicate Settleable(s: State, key: ResourceKey) {
    && (forall id :: id in s.holdings && Charges(s.holdings[id], key) ==>
          s.holdings[id].state.Active? && s.holdings[id].target.AccountingOnly?)
    && (forall id, c :: id in s.holdings && c in s.holdings && Charges(s.holdings[id], key)
                        && ChildOf(s.holdings, c, id) && Occupying(s.holdings, c) ==>
          Charges(s.holdings[c], key))
  }

  function SettledRows(hs: Rows, key: ResourceKey, now: Timestamp): Rows {
    map id | id in hs :: if Charges(hs[id], key) then hs[id].(state := Retired(now)) else hs[id]
  }

  function SettlePool(s: State, key: ResourceKey, now: Timestamp): Step<()> {
    match CheckPool(s, key, Counted)
    case Err(e) => Step(s, Err(e))
    case Ok(_) =>
      if !Settleable(s, key) then
        Step(s, Err(if forall id :: id in s.holdings && Charges(s.holdings[id], key) ==>
                      s.holdings[id].state.Active? && s.holdings[id].target.AccountingOnly?
                    then TeardownOrder else CleanupRequired))
      else
        Step(s.(holdings := SettledRows(s.holdings, key, now), pools := s.pools[key := CountFrag(Value(0))]), Ok(()))
  }

  function DeclareInstantiation(s: State, child: Name, parent: Name): Step<()> {
    Step(s.(instantiations := s.instantiations[child := parent]), Ok(()))
  }

  // ----- holdings -----

  predicate TargetTaken(hs: Rows, target: CleanupTarget) {
    exists id :: id in hs && hs[id].state.Occupies() && target.ConflictsWith(hs[id].target)
  }

  function CheckParent(s: State, req: GrantRequest): Result<(), LedgerError> {
    match req.parent
    case None => Ok(())
    case Some(p) =>
      match Resolve(s, p)
      case Err(e) => Err(e)
      case Ok(ph) =>
        if !ph.state.Active? then Err(ForgedHandle)
        else if ph.subject != req.owner
                && !(req.owner in s.instantiations && s.instantiations[req.owner] == ph.subject)
        then Err(ParentAuthority)
        else Ok(())
  }

  function NewHolding(id: nat, key: ResourceKey, req: GrantRequest, lease: Lease, target: CleanupTarget): Holding {
    Holding(id, req.owner, key.classId, key.instance, req.claim, req.generation,
            if req.parent.Some? then Some(req.parent.value.id) else None,
            lease, req.now, Active, target)
  }

  // All checks of a grant, in order; the lease is what they leave to decide.
  function AdmitGrant(s: State, key: ResourceKey, req: GrantRequest,
                      target: CleanupTarget): Result<Lease, LedgerError> {
    match CheckPool(s, key, req.claim.Tag())
    case Err(e) => Err(e)
    case Ok(cap) =>
      if key.classId !in s.classes then Err(UnknownClass)
      else if target.Policy() != s.classes[key.classId].cleanup || target.Unresolved? then Err(CleanupRequired)
      else if req.generation == "" then Err(InvalidGeneration)
      else if TargetTaken(s.holdings, target) then Err(Conflict)
      else
        match CheckParent(s, req)
        case Err(e) => Err(e)
        case Ok(_) =>
          match req.lease.Resolve(s.classes[key.classId].leaseDuration, req.parent.Some?, req.now)
          case Err(e) => Err(e)
          case Ok(lease) =>
            var all := LiveFrags(s, key) + [req.claim];
            if !Uniform(cap.Tag(), all) then Err(AlgebraMismatch)
            else if !Fits(cap, all) then Err(Conflict)
            else if s.nextId > I64_MAX then Err(OutOfRange)
            else Ok(lease)
  }

  function Grant(s: State, key: ResourceKey, req: GrantRequest, target: CleanupTarget): Step<Handle> {
    match AdmitGrant(s, key, req, target)
    case Err(e) => Step(s, Err(e))
    case Ok(lease) =>
      var h := NewHolding(s.nextId, key, req, lease, target);
      Step(SetRow(s, s.nextId, h).(nextId := s.nextId + 1), Ok(h.Ref()))
  }

  function Transfer(s: State, handle: Handle, owner: Name, to: Name): Step<()> {
    match Resolve(s, handle)
    case Err(e) => Step(s, Err(e))
    case Ok(h) =>
      if !h.state.Active? || h.subject != owner then Step(s, Err(ForgedHandle))
      else Step(SetRow(s, handle.id, h.(subject := to)), Ok(()))
  }

  function Release(s: State, handle: Handle, now: Timestamp): Step<()> {
    match Resolve(s, handle)
    case Err(e) => Step(s, Err(e))
    case Ok(h) =>
      if h.state.Retired? then
        if h.classId !in s.classes then Step(s, Err(UnknownClass))
        else if s.classes[h.classId].releaseIdempotent then Step(s, Ok(()))
        else Step(s, Err(DoubleRelease))
      else if !h.state.Active? || h.target.Policy() != AccountingPolicy then Step(s, Err(CleanupRequired))
      else if HasOccupyingChild(s.holdings, handle.id) then Step(s, Err(TeardownOrder))
      else Step(SetRow(s, handle.id, h.(state := Retired(now))), Ok(()))
  }

  function RenewedLease(s: State, h: Holding, req: LeaseRequest, now: Timestamp): Result<Lease, LedgerError> {
    if h.classId !in s.classes then Err(UnknownClass)
    else if req.UseClassDefault? && s.classes[h.classId].leaseDuration.None? then Ok(h.lease)
    else req.Resolve(s.classes[h.classId].leaseDuration, h.parent.Some?, now)
  }

  predicate ParentActive(s: State, h: Holding) {
    h.parent.Some? && h.parent.value in s.holdings && s.holdings[h.parent.value].state.Active?
  }

  function Renew(s: State, handle: Handle, req: LeaseRequest, now: Timestamp): Step<Lease> {
    match Resolve(s, handle)
    case Err(e) => Step(s, Err(e))
    case Ok(h) =>
      if !h.state.Active? then Step(s, Err(ForgedHandle))
      else
        match RenewedLease(s, h, req, now)
        case Err(e) => Step(s, Err(e))
        case Ok(lease) =>
          if lease.ParentBound? && !ParentActive(s, h) then Step(s, Err(InvalidLease))
          else Step(SetRow(s, handle.id, h.(lease := lease)), Ok(lease))
  }

  // ----- retirement -----

  predicate BoundChild(hs: Rows, id: nat) {
    id in hs && hs[id].state.Active? && hs[id].lease.ParentBound? && hs[id].parent.Some?
  }

  // `id` hangs off `root` through at most `n` active parent-bound links.
  predicate BoundIn(hs: Rows, root: nat, id: nat, n: nat)
    decreases n
  {
    && id in hs
    && (id == root || (n > 0 && BoundChild(hs, id) && BoundIn(hs, root, hs[id].parent.value, n - 1)))
  }

  ghost predicate Bound(hs: Rows, root: nat, id: nat) {
    exists n: nat :: BoundIn(hs, root, id, n)
  }

  ghost function BoundClosure(hs: Rows, root: nat): set<nat> {
    set id | id in hs && Bound(hs, root, id)
  }

  function Digit(d: nat): char
    requires d < 10
  {
    "0123456789"[d]
  }

  function Decimal(n: nat): string {
    if n < 10 then [Digit(n)] else Decimal(n / 10) + [Digit(n % 10)]
  }

  // The requested key goes to the root; dependants get keys derived from it.
  function KeyFor(key: string, root: nat, id: nat): string {
    if id == root then key else key + ":bound:" + Decimal(id)
  }

  function InitialTaskState(h: Holding): CleanupState {
    if h.target.Unresolved? then Blocked(h.target.reason) else Pending
  }

  function NewTask(h: Holding, key: string, now: Timestamp): CleanupRecord {
    CleanupRecord(h.id, key, h.Ref(), InitialTaskState(h), 0, now, now)
  }

  predicate KeyTaken(s: State, key: string) {
    exists t :: t in s.cleanups && s.cleanups[t].key == key
  }

  function RetireRows(hs: Rows, ids: set<nat>): Rows {
    map id | id in hs :: if id in ids then hs[id].(state := Retiring(id)) else hs[id]
  }

  function RetireTasks(s: State, ids: set<nat>, root: nat, key: string, now: Timestamp): map<nat, CleanupRecord>
    requires ids <= s.holdings.Keys
  {
    map id | id in s.cleanups.Keys + ids ::
      if id in ids then NewTask(s.holdings[id], KeyFor(key, root, id), now) else s.cleanups[id]
  }

  ghost function RequestRetirement(s: State, handle: Handle, key: string, now: Timestamp): Step<HoldingState> {
    match Resolve(s, handle)
    case Err(e) => Step(s, Err(e))
    case Ok(root) =>
      if !root.state.Active? then Step(s, Ok(root.state))
      else
        var ids := BoundClosure(s.holdings, handle.id);
        if exists id :: id in ids && KeyTaken(s, KeyFor(key, handle.id, id)) then Step(s, Err(InvalidCleanup))
        else
          Step(s.(holdings := RetireRows(s.holdings, ids), cleanups := RetireTasks(s, ids, handle.id, key, now)),
               Ok(Retiring(handle.id)))
  }

  function Claim(s: State, id: nat, worker: HostWitness, now: Timestamp): Step<Option<CleanupWork>> {
    if id !in s.cleanups then Step(s, Err(InvalidCleanup))
    else
      var task := s.cleanups[id];
      if task.state.Running? || task.state.Done? then Step(s, Ok(None))
      else
        match Resolve(s, task.holding)
        case Err(e) => Step(s, Err(e))
        case Ok(h) =>
          if h.state != Retiring(id) then Step(s, Err(InvalidCleanup))
          else if HasOccupyingChild(s.holdings, h.id) then Step(s, Ok(None))
          else if h.classId !in s.classes then Step(s, Err(UnknownClass))
          else if task.attempts + 1 > I64_MAX then Step(s, Err(OutOfRange))
          else
            var claimed := task.(attempts := task.attempts + 1, state := Running(worker), updatedAt := now);
            Step(s.(cleanups := s.cleanups[id := claimed]),
                 Ok(Some(CleanupWork(claimed, h.target, h.Key(), s.classes[h.classId].revertGrade))))
  }

  function Finish(s: State, work: CleanupWork, outcome: CleanupOutcome, now: Timestamp): Step<()> {
    var id := work.task.id;
    if id !in s.cleanups then Step(s, Err(StaleAttempt))
    else if s.cleanups[id] != work.task || !s.cleanups[id].state.Running? then Step(s, Err(StaleAttempt))
    else
      match Resolve(s, s.cleanups[id].holding)
      case Err(e) => Step(s, Err(e))
      case Ok(h) =>
        if h.state != Retiring(id) || h.target != work.target then Step(s, Err(StaleAttempt))
        else if HasOccupyingChild(s.holdings, h.id) then Step(s, Err(TeardownOrder))
        else
          var s1 := if outcome.Discharges() then SetRow(s, h.id, h.(state := Retired(now))) else s;
          Step(s1.(cleanups := s.cleanups[id := s.cleanups[id].(state := outcome.Recorded(), updatedAt := now)]),
            Ok(()))
  }

  const Interrupted: Name := "worker interrupted before durable confirmation"

  function Abandon(s: State, observed: CleanupRecord, now: Timestamp): Step<()> {
    if observed.id !in s.cleanups then Step(s, Err(StaleAttempt))
    else if s.cleanups[observed.id] != observed || !observed.state.Running? then Step(s, Err(StaleAttempt))
    else
      Step(s.(cleanups := s.cleanups[observed.id := observed.(state := Unknown(Interrupted), updatedAt := now)]),
        Ok(()))
  }

  // ----- the transition system -----

  datatype Op =
    | OpRegisterClass(decl: ClassDecl)
    | OpCreatePool(key: ResourceKey, capacity: ValidFrag)
    | OpResizePool(key: ResourceKey, capacity: ValidFrag)
    | OpSettlePool(key: ResourceKey, now: Timestamp)
    | OpDeclareInstantiation(child: Name, parent: Name)
    | OpGrant(key: ResourceKey, request: GrantRequest, target: CleanupTarget)
    | OpTransfer(handle: Handle, owner: Name, to: Name)
    | OpRelease(handle: Handle, now: Timestamp)
    | OpRenew(handle: Handle, lease: LeaseRequest, now: Timestamp)
    | OpRequestRetirement(handle: Handle, cleanupKey: string, now: Timestamp)
    | OpClaim(task: nat, worker: HostWitness, now: Timestamp)
    | OpFinish(work: CleanupWork, outcome: CleanupOutcome, now: Timestamp)
    | OpAbandon(observed: CleanupRecord, now: Timestamp)

  function Erase<T>(step: Step<T>): Step<()> {
    Step(step.state, match step.result case Ok(_) => Ok(()) case Err(e) => Err(e))
  }

  ghost function Apply(s: State, op: Op): Step<()> {
    match op
    case OpRegisterClass(d) => RegisterClass(s, d)
    case OpCreatePool(k, c) => CreatePool(s, k, c)
    case OpResizePool(k, c) => ResizePool(s, k, c)
    case OpSettlePool(k, now) => SettlePool(s, k, now)
    case OpDeclareInstantiation(c, p) => DeclareInstantiation(s, c, p)
    case OpGrant(k, r, t) => Erase(Grant(s, k, r, t))
    case OpTransfer(h, o, t) => Transfer(s, h, o, t)
    case OpRelease(h, now) => Release(s, h, now)
    case OpRenew(h, l, now) => Erase(Renew(s, h, l, now))
    case OpRequestRetirement(h, k, now) => Erase(RequestRetirement(s, h, k, now))
    case OpClaim(t, w, now) => Erase(Claim(s, t, w, now))
    case OpFinish(w, o, now) => Finish(s, w, o, now)
    case OpAbandon(r, now) => Abandon(s, r, now)
  }
}
