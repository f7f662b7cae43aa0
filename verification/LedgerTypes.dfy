// Entities of the resource ledger: identities, leases, cleanup records and holdings.

module LedgerTypes {
  import opened Prelude
  import opened Algebra

  type Timestamp = t: nat | t <= I64_MAX

  datatype LedgerError =
    | UnknownClass | UnknownPool | AlgebraMismatch | Conflict | ForgedHandle | StaleGeneration
    | TeardownOrder | DoubleRelease | ParentAuthority | InvalidValue | InvalidLease | OutOfRange
    | ClassConflict | PoolExists | ForeignReference | DuplicateId | InvalidGraph | InvalidGeneration
    | CleanupRequired | InvalidCleanup | StaleAttempt

  datatype ResourceKey = ResourceKey(classId: Name, instance: Name)

  // A reference, not a liveness witness: every transition rechecks the generation.
  datatype Handle = Handle(id: nat, generation: Name)

  // ----- leases -----

  datatype Lease = Until(deadline: Timestamp) | ParentBound | Unbounded

  datatype LeaseRequest =
    | UseClassDefault
    | ForDuration(duration: Timestamp)
    | UntilTime(deadline: Timestamp)
    | BindToParent
    | NoExpiry
  {
    function Resolve(default: Option<Timestamp>, hasParent: bool, now: Timestamp): Result<Lease, LedgerError> {
      match this
      case UseClassDefault =>
        (match default
         case Some(d) => Expiry(now, d)
         case None => if hasParent then Ok(ParentBound) else Ok(Unbounded))
      case ForDuration(d) => Expiry(now, d)
      case UntilTime(t) => Ok(Until(t))
      case BindToParent => if hasParent then Ok(ParentBound) else Err(InvalidLease)
      case NoExpiry => Ok(Unbounded)
    }
  }

  function Expiry(now: Timestamp, d: Timestamp): Result<Lease, LedgerError> {
    if now + d > I64_MAX then Err(OutOfRange) else Ok(Until(now + d))
  }

  // ----- classes -----

  datatype CleanupKind = ProcessKind | FileLockKind | PortKind | SubscriptionKind | PluginKind | ProviderKind

  datatype CleanupPolicy = AccountingPolicy | Managed(kind: CleanupKind)

  datatype RevertGrade = Inverse | Compensable | External

  datatype ClassDecl = ClassDecl(
    cleanup: CleanupPolicy,
    classId: Name,
    algebra: AlgebraTag,
    releaseIdempotent: bool,
    leaseDuration: Option<Timestamp>,
    revertGrade: RevertGrade)
  {
    predicate Registrable() {
      cleanup.Managed? ==>
        && (!cleanup.kind.ProviderKind? ==> algebra.Exclusive? && releaseIdempotent)
        && (!releaseIdempotent ==> revertGrade.Compensable?)
    }
  }

  // ----- cleanup targets -----

  datatype ProcessWitness = ProcessWitness(pid: nat, startTicks: nat, boot: Name)
  datatype FileLockWitness = FileLockWitness(path: Name, device: nat, inode: nat, owner: Option<ProcessWitness>)
  datatype Transport = Tcp | Udp
  datatype PortWitness = PortWitness(transport: Transport, port: nat)
  datatype HostWitness = HostWitness(process: ProcessWitness, session: Name)

  datatype CleanupTarget =
    | AccountingOnly
    | Process(incarnation: ProcessWitness)
    | FileLock(lock: FileLockWitness)
    | Port(endpoint: PortWitness)
    | Subscription(host: HostWitness, subscription: nat)
    | Plugin(pluginHost: HostWitness, process: ProcessWitness)
    | Provider
    | Unresolved(kind: CleanupKind, reason: Name)
  {
    function ProcessOf(): Option<ProcessWitness> {
      match this
      case Process(w) => Some(w)
      case Plugin(_, w) => Some(w)
      case _ => None
    }

    predicate ConflictsWith(other: CleanupTarget) {
      if ProcessOf().Some? && other.ProcessOf().Some? then ProcessOf() == other.ProcessOf()
      else
        match (this, other)
        case (FileLock(a), FileLock(b)) => a.path == b.path || (a.device == b.device && a.inode == b.inode)
        case (Port(a), Port(b)) => a == b
        case (Subscription(a, x), Subscription(b, y)) => a == b && x == y
        case _ => false
    }

    function Policy(): CleanupPolicy {
      match this
      case AccountingOnly => AccountingPolicy
      case Process(_) => Managed(ProcessKind)
      case FileLock(_) => Managed(FileLockKind)
      case Port(_) => Managed(PortKind)
      case Subscription(_, _) => Managed(SubscriptionKind)
      case Plugin(_, _) => Managed(PluginKind)
      case Provider => Managed(ProviderKind)
      case Unresolved(k, _) => Managed(k)
    }
  }

  lemma ConflictSymmetric(a: CleanupTarget, b: CleanupTarget)
    ensures a.ConflictsWith(b) == b.ConflictsWith(a)
  {
  }

  // ----- lifecycle -----

  // A cleanup id is the id of the holding it discharges.
  datatype HoldingState = Active | Retiring(task: nat) | Retired(at: Timestamp) {
    predicate Occupies() { !Retired? }

    // The only order in which a holding may move.
    predicate ForwardTo(next: HoldingState) {
      this == next || Active? || (Retiring? && next.Retired?)
    }
  }

  datatype Completion = Confirmed | AlreadyAbsent

  datatype CleanupOutcome =
    | OutcomeConfirmed | OutcomeAbsent
    | OutcomeRetryable(why: Name) | OutcomeUnknown(why: Name) | OutcomeBlocked(why: Name)
  {
    predicate Discharges() { OutcomeConfirmed? || OutcomeAbsent? }

    function Recorded(): CleanupState {
      match this
      case OutcomeConfirmed => Done(Confirmed)
      case OutcomeAbsent => Done(AlreadyAbsent)
      case OutcomeRetryable(s) => Retryable(s)
      case OutcomeUnknown(s) => Unknown(s)
      case OutcomeBlocked(s) => Blocked(s)
    }
  }

  datatype CleanupState =
    | Pending | Running(worker: HostWitness)
    | Retryable(why: Name) | Unknown(why: Name) | Blocked(why: Name)
    | Done(completion: Completion)

  datatype CleanupRecord = CleanupRecord(
    id: nat,
    key: string,
    holding: Handle,
    state: CleanupState,
    attempts: nat,
    requestedAt: Timestamp,
    updatedAt: Timestamp)

  // A claimed attempt: completion must match its task, incarnation and attempt.
  datatype CleanupWork = CleanupWork(
    task: CleanupRecord, target: CleanupTarget, resource: ResourceKey, grade: RevertGrade)

  datatype Holding = Holding(
    id: nat,
    subject: Name,
    classId: Name,
    instance: Name,
    frag: Frag,
    generation: Name,
    parent: Option<nat>,
    lease: Lease,
    acquiredAt: Timestamp,
    state: HoldingState,
    target: CleanupTarget)
  {
    function Key(): ResourceKey { ResourceKey(classId, instance) }
    function Ref(): Handle { Handle(id, generation) }

    // Columns no operation ever rewrites.
    predicate SameIdentity(other: Holding) {
      && id == other.id && classId == other.classId && instance == other.instance && frag == other.frag
      && generation == other.generation && parent == other.parent
      && acquiredAt == other.acquiredAt && target == other.target
    }
  }

  // Capacities and claims are checked for validity when they are built.
  type ValidFrag = f: Frag | f.Valid() witness SetFrag({})

  datatype GrantRequest = GrantRequest(
    owner: Name, claim: ValidFrag, generation: Name, parent: Option<Handle>, lease: LeaseRequest, now: Timestamp)
}
