# PortOS: ledger, cleanup protocol and effect plans

A Dafny model of the resource and planning core of PortOS, with proofs. `dafny verify dfyconfig.toml` checks all of it.

**Resource algebras** (`Ranges`, `Algebra`, `Auth`, `PoolRoom`). The five algebras behind pools: exclusive tokens, bounded counts with u64 overflow as an invalid element, sets, ranges and fractions. Ranges carry a canonical form that is unique for a point set; from it follow commutativity, associativity and exact inclusion. A pool fits or does not fit whatever the order of its rows, and removing a claim never breaks it; `PoolRoom` says what fitting means in each algebra.

**Ledger** (`LedgerTypes`, `LedgerState`, `LedgerOps`, `LedgerInvariant`, `Retirement`, `LedgerRuns`; `LedgerFacts`, `LedgerMeaning`, `LedgerAnswers`, `SnapshotFacts`; `LedgerRows`, `LedgerObject`, `LedgerCleanup`, `LedgerClosures`, `LedgerCheck`, `LedgerBuild`). `LedgerState` holds the declarative invariant, `LedgerOps` the transitions as functions of an abstract state, `LedgerRuns` what holds over every run: safety, attempt fencing, children first. `LedgerFacts` states the invariant once more in plain facts and proves the two equivalent; `LedgerMeaning` and `LedgerAnswers` say what each operation answers and changes, with leases tied to the times at which rows fall due. The class `LedgerObject.Ledger` updates a holdings vector and four maps in place; each of its methods, worklists and closures is proved against the transition it implements. The executable checker is proved to decide the invariant on arbitrary data, cyclic or dangling parents included.

**Storage** (`Persistence`, `StoreProtocol`, `LedgerStorage`, `LedgerOpen`, `Accounts`, `Payments`). Tables with exactly the upsert rules of the code; a store with staged transactions, faults and revision checks; any interleaving of several stores on one database; decoding and reopening; balances, batches of spends and owner transfer.

**Cleanup runner** (`RunnerSpec`, `Runner`, `CleanupAnswers`, `RunnerMain`, `Teardown`, `SharedRuns`, `SharedRunner`). The multi-pass runner with its scope, its attempted set and an executor that may answer anything; teardown of an owner and the periodic sweep on top of it; the order of claims and discharges when other transactions come in between, and the same runner with anything done by others between any two of its own transactions.

**Plan analysis** (`PlanShapes`, `Protocol`, `Reordering`, `Coeffect`, `PlanIr`, `Doubles`, `PlanCheck`, `PlanAnnotations`, `PlanReadings`, `PlanFlow`, `PlanText`, `PlanRefusals`, `PlanAdmission`). Concrete paths of plan shapes; protocol reachability, the world-order check and the exact condition under which it is exact; demand vectors; the admission walk, in exact and in machine arithmetic, and its record of effect sites; what an admitted plan is in terms of its text, and which atoms flow to which effect.

**Plan execution** (`PlanSemantics`, `PlanFrames`, `PlanRuns`, `PlanLogs`, `PlanBudget`, `PlanFunds`, `PlanSignals`, `PlanStart`, `PlanReach`, `PlanLimits`, `PlanLabels`, `PlanSights`, `PlanGuards`, `PlanMachine`, `PlanMachineRuns`, `Interpreter`, `Approval`). The meaning of plans against arbitrary answers of the world, the interpreter object that implements it, an abstract machine with independent rules that agrees with it, and what admission guarantees for every run: steps, budgets, capabilities, labels, effect order, and the release of withheld effects. `PlanLimits` holds one plan for each condition without which a guarantee fails.

## Where code and documentation differ

- `crates/portos-rm/src/protocol.rs:14-17` calls the world-order check exact without branches. A loop already breaks exactness, because the two projections choose their round counts independently (`Protocol.LoopNotExact`), and some branching plans are exact. `Reordering.ExactCondition` gives the condition, for every plan and every set of withheld verbs: each split order must be the beginning of what some single path shows the world, nameless verbs aside, which no automaton has in scope. Plans without branches and loops meet it, and so does every plan of which nothing, or everything, is withheld.
- `crates/portos-kernel/src/plans/admission.rs:174` describes the demand as every verb a plan may reach. What effects read in their arguments, pure computation included, is not collected. The minted capabilities cover every reachable verb if and only if those reads are demanded elsewhere in the plan (`PlanReach.DemandCovers`). Under that condition no call misses its capability (`PlanReach.DemandedFound`); otherwise, unless the run is resumed with more, a call outside the demand stops it there (`PlanReach.UndemandedStops`, and `PlanLimits.ArgumentReadRefused` for an admitted plan).
- Reads are said to be minted without a count, and not to be limited (`crates/portos-kernel/src/plans/admission.rs:133-134`, `crates/portos-kernel/src/plans/interpreter/eval.rs:33-34`). The minting loop counts every demanded verb the consent names (`PlanStart.MintCounted`), while the check at the start compares performances only. So the budget guarantee asks that the consent suffice, for each demanded verb that is performed or that it counts, for performances and reads together. Then a call passes the gate exactly when its verb is demanded, and none is refused for budget (`PlanStart.AdmittedRun`, `PlanReach.CallsDecided`). If only the performed verbs are covered, no effect is stopped for budget (`PlanStart.FundedRun`), but a counted read may be: one unit less is not enough (`PlanLimits.SharedVerbExhausts`, `PlanLimits.CountedReadExhausts`). The host in this repository registers every effect as external and never the same verb as readable (`crates/portos-kernel/src/host/routing.rs:146-162`). There the check at the start covers the effects, and the reads too unless the consent counts one of them short (`PlanStart.SeparateSuffices`, `PlanStart.SeparateRun`).
- The same guarantee lasts as long as the capabilities do, through the calls the run makes. Each carries the end of its consent, and its holding the same lease: past it the gate fails the call, and once the sweep has retired the holding the gate reports a missing capability, which the interpreter treats as exhaustion (`PlanLimits.ExpiredConsentStops`). The sweep retires at the end itself, the gate refuses only after it.
- The sink guarantee needs that each name is bound at one textual site, because a later binding overwrites an earlier one (`PlanLabels.RebindingReachesSink`).
- An escalating loop that overruns its bound runs over the whole list after a resume (`crates/portos-kernel/src/plans/interpreter.rs:145-150`), so step and budget bounds hold for plans without escalating loops and for runs that are never resumed; `PlanLimits.ResumedOverrun` exceeds both. Label and log-order properties hold for all runs.
- Guards compare numbers as doubles (`crates/portos-kernel/src/plans/interpreter/eval.rs:137-143`): above 2^53 different whole numbers can compare equal (`PlanIr.WholesCollide`), but never the wrong way round (`PlanIr.WholeOrder`).

## Modelling choices

- Class, instance, subject, state, verb and label names are strings that are only compared. Verbs are pairs of family and short name. Cleanup keys are real strings, because their derived form matters.
- Fractions are reals in (0, 1]. JSON numbers are whole numbers of 64 bits or doubles; a double is the real it stands for. Times, ids and attempt counters keep their i64 bound, step totals and multipliers their u64 width, loop bounds their u32 width; the end of a consent is a sum without overflow.
- The executor, the world behind a plan, the clock, the liveness of capability holdings, buffer writes, the liveness of workers, commit faults and the genuineness of a consent are parameters that may take any value; those of a run may differ at every call. Listing the live candidates of a call and exercising one see the same holdings.
- Maps are visited in an arbitrary order where the code visits them in key order and the result does not depend on it; an error that names an element names some offending element.
- `steps`, `trace`, `notes` and `asked` of a run state only observe it.

## Model

| member | source | states |
|---|---|---|
| Ranges.NormalExact | crates/portos-rm/src/ra.rs:221-238 | normalisation succeeds exactly when the input spans are pairwise apart, and then yields a canonical list with the same points |
| Ranges.Normalize | crates/portos-rm/src/ra.rs:221-238 | the in-place loop: sort, then extend or push the last span; it computes that normal form and refuses exactly the overlapping inputs |
| Ranges.CanonicalUnique | crates/portos-rm/src/ra.rs:178-187 | two canonical lists with the same points are the same list, so equality of ranges is equality of point sets |
| Ranges.JoinExact | crates/portos-rm/src/ra.rs:246-257 | composing canonical ranges succeeds exactly when they share no point, and yields exactly their union |
| Ranges.JoinCommutes | crates/portos-rm/src/ra.rs:246-257 | range composition is commutative, refusals included |
| Ranges.JoinAssociates | crates/portos-rm/src/ra.rs:246-257 | range composition is associative, with the refused composition absorbing |
| Ranges.CoverageExact | crates/portos-rm/src/ra.rs:239-245 | the span-by-span coverage test decides inclusion of point sets |
| Ranges.CoverageHasComplement | crates/portos-rm/src/ra.rs:264-273 | whenever one range covers another, a canonical remainder exists whose composition gives back the larger one |
| Algebra.DotCommutes | crates/portos-rm/src/ra.rs:351-356 | composition is commutative in all five algebras |
| Algebra.DotAssociates | crates/portos-rm/src/ra.rs:351-353 | composition is associative in all five algebras, invalid elements included |
| Algebra.DotValidLeft | crates/portos-rm/src/ra.rs:357-359 | a part of a valid composition is valid |
| Algebra.InclusionExact | crates/portos-rm/src/ra.rs:34-36 | the inclusion test of each algebra holds if and only if some element completes the smaller one to the larger |
| Algebra.CoreLaws | crates/portos-rm/src/ra.rs:360-383 | the core is an identity, is idempotent and is monotone along inclusion |
| Algebra.WithinTransitive | crates/portos-rm/src/ra.rs:54-60 | the lifted inclusion used by capacities is transitive |
| Algebra.WithinDot | crates/portos-rm/src/ra.rs:54-60 | each part is within its composition, from either side |
| Auth.ComposePermutation | crates/portos-rm/src/auth.rs:14-22 | the composition of outstanding fragments depends only on their multiset |
| Auth.FitsWithout | crates/portos-rm/src/auth.rs:23-33 | deleting any fragment keeps a pool valid and within capacity |
| Auth.FitsSubset | crates/portos-rm/src/auth.rs:23-33 | every sub-multiset of fitting fragments fits |
| Auth.FitsPermutation | crates/portos-rm/src/ledger.rs:75-101 | whether a pool fits does not depend on the order in which rows are listed |
| Auth.CountMintExact | crates/portos-rm/src/auth.rs:34-38 | for counts the issuer gate is exactly: live sum plus the wanted amount is at most the capacity, over the naturals, despite u64 overflow |
| LedgerInvariant.RegisterClassPreserves | crates/portos-rm/src/ledger.rs:342-365 | registering a class keeps the full invariant and only moves rows, tasks and tables forward |
| LedgerInvariant.CreatePoolPreserves | crates/portos-rm/src/ledger.rs:378-398 | creating a pool keeps the full invariant and only moves rows, tasks and tables forward |
| LedgerInvariant.ResizePoolPreserves | crates/portos-rm/src/ledger.rs:419-431 | resizing a pool keeps the full invariant and only moves rows, tasks and tables forward |
| LedgerInvariant.SettlePoolPreserves | crates/portos-rm/src/ledger.rs:433-456 | settling and zeroing a pool keeps the full invariant and only moves rows, tasks and tables forward |
| LedgerInvariant.GrantPreserves | crates/portos-rm/src/ledger.rs:501-563 | a grant keeps the full invariant and only moves rows, tasks and tables forward |
| LedgerInvariant.TransferPreserves | crates/portos-rm/src/ledger.rs:564-581 | a transfer keeps the full invariant and only moves rows, tasks and tables forward |
| LedgerInvariant.ReleasePreserves | crates/portos-rm/src/ledger.rs:582-609 | a release keeps the full invariant and only moves rows, tasks and tables forward |
| LedgerInvariant.RenewPreserves | crates/portos-rm/src/ledger.rs:610-644 | a renewal keeps the full invariant and only moves rows, tasks and tables forward |
| LedgerInvariant.ClaimPreserves | crates/portos-rm/src/ledger/cleanup.rs:90-128 | a claim keeps the full invariant and only moves rows, tasks and tables forward |
| LedgerInvariant.FinishPreserves | crates/portos-rm/src/ledger/cleanup.rs:130-169 | finishing an attempt, with any outcome, keeps the full invariant and only moves rows, tasks and tables forward |
| LedgerInvariant.AbandonPreserves | crates/portos-rm/src/ledger/cleanup.rs:174-190 | abandoning an attempt keeps the full invariant and only moves rows, tasks and tables forward |
| Retirement.RequestRetirementPreserves | crates/portos-rm/src/ledger/cleanup.rs:19-86 | a retirement request keeps the full invariant and only moves state forward |
| Retirement.ClosureExact | crates/portos-rm/src/ledger/cleanup.rs:29-46 | a request takes along exactly the root and its active descendants linked by parent-bound leases: the least set closed under such children |
| Retirement.KeyForInjective | crates/portos-rm/src/ledger/cleanup.rs:36-42 | derived cleanup keys of distinct holdings are distinct |
| Retirement.DueLeast | crates/portos-rm/src/ledger/cleanup.rs:192-216 | the due set is contained in every set closed under expiry and parent-bound inheritance |
| Retirement.KernelRequestAccepted | crates/portos-kernel/src/ledger/cleanup.rs:43-58 | with keys of the kernel's shape a request for a resolvable holding is never refused |
| Retirement.RequestManyEffect | crates/portos-kernel/src/ledger/cleanup.rs:59-69 | a successful batch only retires active rows, adds untried tasks, leaves every named holding inactive and changes nothing else |
| Retirement.SweepLeavesNothingDue | crates/portos-kernel/src/ledger/cleanup.rs:236-241 | after requesting everything found due, nothing is due at that time |
| Retirement.CleanupKeyInjective | crates/portos-kernel/src/ledger/cleanup.rs:43-58 | cleanup keys tell realms and holdings apart |
| LedgerRuns.OpPreserves | crates/portos-rm/src/ledger.rs:342-643 | every operation keeps the invariant, moves only forward, and leaves the state unchanged when it is refused |
| LedgerRuns.ReachableValid | crates/portos-rm/src/ledger.rs:655-710 | from the empty ledger every state any sequence of operations reaches satisfies the invariant, with every id below the next id |
| LedgerRuns.RunPreserves | crates/portos-rm/src/ledger.rs:131-144 | along every run the identity columns of rows never change, tables never lose entries and states only move forward |
| LedgerRuns.ClaimedWorkIsLive | crates/portos-rm/src/ledger/cleanup.rs:90-128 | a claim hands out work that can be finished, and ends every older attempt of the task |
| LedgerRuns.Fencing | crates/portos-rm/src/ledger/cleanup.rs:130-190 | once an attempt was finished or abandoned, no work value of it or of an older attempt changes the ledger again, whatever happens in between |
| LedgerRuns.DischargesAtMostOnce | crates/portos-rm/src/ledger/cleanup.rs:130-190 | in one run from the empty ledger, one claimed work value is accepted at most once |
| LedgerRuns.FinishNeverOutOfOrder | crates/portos-rm/src/ledger/cleanup.rs:143-147 | from the empty ledger a running task's holding never has an occupying child, so the teardown-order refusal of a finish is unreachable |
| LedgerRuns.RetiredForever | crates/portos-rm/src/ledger.rs:582-609 | a retired holding stays as it is, and nothing below it ever occupies again |
| LedgerRuns.RetiresLast | crates/portos-rm/src/ledger/cleanup.rs:143-164 | a holding retires only through a release, a finish or a pool settlement, and only when nothing below it occupies; a settlement is the only step that retires descendants along with it |
| PoolRoom.FitsExact | crates/portos-rm/src/auth.rs:23-38 | claims fit a capacity exactly when there is room for them, algebra by algebra: one token at most, a sum within the count, names within the set, ranges without a common point inside the capacity, shares that add up to at most the whole |
| LedgerFacts.ConflictExact | crates/portos-rm/src/cleanup.rs:191-216 | two cleanup targets conflict exactly when some process, path, inode, endpoint or subscription belongs to both |
| LedgerFacts.ForestExact | crates/portos-rm/src/ledger.rs:680-691 | parents form a forest exactly when they exist and some ranking puts each below its children |
| LedgerFacts.LiveExact | crates/portos-rm/src/ledger.rs:488-493 | the fragments charged to a pool are the claims of exactly the rows of its class and instance that are not retired, by id |
| LedgerFacts.InvariantExact | crates/portos-rm/src/ledger.rs:655-710 | the decided invariant is exactly: well-formed rows under ranked parents, one owner for each thing in the world, tasks that mirror their rows, keys used once, and room in each pool |
| LedgerFacts.ManagedAlone | crates/portos-rm/src/ledger.rs:342-365 | a pool of a managed class that is not a provider never has two occupying rows |
| LedgerMeaning.LeaseExact | crates/portos-rm/src/time.rs:76-96 | a duration, asked for or the default of the class, ends exactly that long after now; every other request has its one lease; refused only for a missing parent or a deadline out of range |
| LedgerMeaning.DueMeans | crates/portos-rm/src/ledger/cleanup.rs:192-216 | an active row is due exactly from its deadline on, or with its parent, or never |
| LedgerMeaning.GrantExact | crates/portos-rm/src/ledger.rs:501-563 | a grant is refused for its first reason and changes nothing, or adds exactly one active row under the next id with the requested owner, claim, parent and target and the lease asked for |
| LedgerMeaning.GrantDue | crates/portos-rm/src/ledger.rs:533-536 | right after a grant the row is due at a time exactly when its lease has run out by then: a duration d granted at now from now + d on |
| LedgerMeaning.RenewExact | crates/portos-rm/src/ledger.rs:610-644 | a renewal is refused for its first reason, or sets exactly the lease asked for; without a default the old lease stays |
| LedgerMeaning.RenewDue | crates/portos-rm/src/ledger.rs:610-644 | after a renewal for a duration the row is due exactly from that long after the renewal |
| LedgerAnswers.TransferExact | crates/portos-rm/src/ledger.rs:564-581 | only the owner of an active row can pass it on; the row changes hands and nothing else |
| LedgerAnswers.TransferBack | crates/portos-rm/src/ledger.rs:564-581 | handing a row on and back restores the ledger, and the giver can no longer pass it on |
| LedgerAnswers.ReleaseExact | crates/portos-rm/src/ledger.rs:582-609 | exactly active accounting rows without occupying children are released; every other answer has its one reason |
| LedgerAnswers.SecondRelease | crates/portos-rm/src/ledger.rs:582-609 | however much later, a second release changes nothing and is an error exactly when the class does not declare releases idempotent |
| LedgerAnswers.DecimalReads | crates/portos-rm/src/ledger/cleanup.rs:36-42 | the numeral in a derived key reads back as the id |
| LedgerAnswers.RequestExact | crates/portos-rm/src/ledger/cleanup.rs:19-86 | a request retires exactly the closure, gives each row an untried task under the given or derived key, and one taken key refuses it all |
| LedgerAnswers.ClaimExact | crates/portos-rm/src/ledger/cleanup.rs:90-128 | a claim hands out exactly an open task that nobody runs, of a row without occupying children, counted and signed, with the target and grade of its row |
| LedgerAnswers.FinishExact | crates/portos-rm/src/ledger/cleanup.rs:130-172 | an attempt can be finished exactly while its record stands; the task records the outcome with its reason, and the row retires if and only if the outcome is confirmed or absent |
| LedgerAnswers.FinishFrees | crates/portos-rm/src/ledger/cleanup.rs:151-164 | a finish frees the claim of its row exactly when the outcome says the resource is gone, and no other claim |
| LedgerAnswers.AbandonExact | crates/portos-rm/src/ledger/cleanup.rs:174-190 | exactly an attempt still on record as running is abandoned, and becomes retryable as interrupted |
| LedgerAnswers.RegisterExact | crates/portos-rm/src/ledger.rs:342-365 | a class is registered exactly when it may be and is not declared differently already |
| LedgerAnswers.CreateExact | crates/portos-rm/src/ledger.rs:378-398 | a pool is created exactly for a class of its algebra, once, or again with the same capacity |
| LedgerAnswers.ResizeExact | crates/portos-rm/src/ledger.rs:419-431 | a pool is resized exactly to what has room for its claims |
| LedgerAnswers.SettleExact | crates/portos-rm/src/ledger.rs:433-456 | a counted pool settles exactly when its claims are active accounting rows with nothing else occupying below them; then all of them retire and it is worth nothing |
| LedgerObject.Ledger.constructor | crates/portos-rm/src/ledger.rs:318-321 | the empty ledger |
| LedgerObject.Ledger.Clone | crates/portos-rm/src/ledger.rs:306-317 | a clone shows the same state under a new identity |
| LedgerObject.Ledger.Resolve | crates/portos-rm/src/ledger.rs:481-487 | a handle resolves to its row, and a forged or stale one is told apart |
| LedgerObject.Ledger.HasOccupyingChild | crates/portos-rm/src/ledger.rs:599-601 | decides whether some occupying row has the given parent |
| LedgerObject.Ledger.LiveFrags | crates/portos-rm/src/ledger.rs:488-493 | collects exactly the fragments charged to a pool |
| LedgerObject.Ledger.RegisterClass | crates/portos-rm/src/ledger.rs:342-365 | the new state and the answer are those of the transition; a different declaration under the same name is refused |
| LedgerObject.Ledger.CreatePool | crates/portos-rm/src/ledger.rs:378-398 | the new state and the answer are those of the transition; foreign references are refused unchanged |
| LedgerObject.Ledger.CheckPool | crates/portos-rm/src/ledger.rs:406-418 | the checks of a pool reference, in order |
| LedgerObject.Ledger.ResizePool | crates/portos-rm/src/ledger.rs:419-431 | the new state and the answer are those of the transition; a capacity that does not fit is refused unchanged |
| LedgerObject.Ledger.DeclareInstantiation | crates/portos-rm/src/ledger.rs:466-468 | the new state is that of the transition |
| LedgerObject.Ledger.Admit | crates/portos-rm/src/ledger.rs:501-537 | all checks of a grant in order, and the lease they leave to decide |
| LedgerObject.Ledger.GrantWithCleanup | crates/portos-rm/src/ledger.rs:501-563 | the new state and the answer are those of the transition; every refusal leaves the state unchanged |
| LedgerObject.Ledger.Transfer | crates/portos-rm/src/ledger.rs:564-581 | the new state and the answer are those of the transition |
| LedgerObject.Ledger.Release | crates/portos-rm/src/ledger.rs:582-609 | the new state and the answer are those of the transition, idempotent and double releases included |
| LedgerObject.Ledger.Renew | crates/portos-rm/src/ledger.rs:610-644 | the new state and the answer are those of the transition, the heartbeat without a default included |
| LedgerCleanup.SelectBound | crates/portos-rm/src/ledger/cleanup.rs:29-46 | the worklist terminates by acyclicity and selects exactly the closure, with derived keys |
| LedgerCleanup.KeysClear | crates/portos-rm/src/ledger/cleanup.rs:47-57 | the batch check accepts exactly when no key of the batch is taken |
| LedgerCleanup.RequestRetirement | crates/portos-rm/src/ledger/cleanup.rs:19-86 | the new state and the answer are those of the transition; a refused batch changes nothing |
| LedgerCleanup.ClaimCleanup | crates/portos-rm/src/ledger/cleanup.rs:90-128 | the new state and the handed-out work are those of the transition |
| LedgerCleanup.FinishCleanup | crates/portos-rm/src/ledger/cleanup.rs:130-172 | the new state and the answer are those of the transition |
| LedgerCleanup.AbandonCleanup | crates/portos-rm/src/ledger/cleanup.rs:174-190 | the new state and the answer are those of the transition |
| LedgerClosures.DueRetirements | crates/portos-rm/src/ledger/cleanup.rs:192-216 | the growing loop returns exactly the active rows of the least due fixpoint, in vector order |
| LedgerClosures.Descendants | crates/portos-rm/src/ledger/cleanup.rs:233-246 | the growing worklist is the least set with the seeds that is closed under visible children, without repetition |
| LedgerClosures.Depth | crates/portos-rm/src/ledger.rs:645-653 | the parent walk terminates and returns the depth in the forest |
| LedgerClosures.ReleaseRows | crates/portos-rm/src/ledger.rs:440-448 | releasing deepest first succeeds exactly when every charged row is an active accounting row whose occupying children are charged to the same pool |
| LedgerClosures.SettleAndZeroPool | crates/portos-rm/src/ledger.rs:433-456 | settlement succeeds exactly under that condition, retires exactly the rows of this pool and zeroes only it; a refusal changes nothing and carries the reason of a charged row such that every deeper one could be settled |
| LedgerCheck.WalkAncestors | crates/portos-rm/src/ledger.rs:680-691 | the ancestor walk terminates on cyclic and dangling parents and decides whether the row is rooted with occupying ancestors |
| LedgerCheck.CheckRows | crates/portos-rm/src/ledger.rs:655-692 | the row pass accepts exactly unique ids, well-formed rows and an acyclic forest |
| LedgerBuild.CheckCleanup | crates/portos-rm/src/ledger/cleanup.rs:247-319 | the cleanup pass accepts exactly consistent retirements and tasks, unique keys and no two owners of one physical target |
| LedgerBuild.CheckPools | crates/portos-rm/src/ledger.rs:694-708 | the pool pass accepts exactly pools whose occupying fragments compose within capacity |
| LedgerBuild.CheckInvariant | crates/portos-rm/src/ledger.rs:655-710 | the executable checker returns Ok if and only if the declarative invariant holds, on arbitrary reconstructed data |
| LedgerBuild.Build | crates/portos-rm/src/ledger.rs:243-278 | a snapshot becomes a ledger exactly when it has no repeated keys, registrable classes and the invariant |
| LedgerBuild.TakeSnapshot | crates/portos-rm/src/ledger.rs:322-341 | a snapshot denotes the state it was taken from and is acceptable to the builder |
| LedgerBuild.RoundTrip | crates/portos-rm/src/ledger.rs:243-341 | rebuilding the snapshot of any valid ledger gives back the same ledger, next id included |
| SnapshotFacts.AcceptableExact | crates/portos-rm/src/ledger.rs:243-278 | a snapshot is accepted exactly when nothing is listed twice, each class may be registered, and the state it lists satisfies the facts of the invariant |
| Persistence.Database.Persist | crates/portos-kernel/src/ledger/codec.rs:133-155 | the statement loops compute exactly the upserted tables |
| Persistence.UpsertExact | crates/portos-kernel/src/ledger/codec.rs:149 | an upsert over a stored row equals an overwrite if and only if the columns it leaves alone agree |
| Persistence.PersistRefinesOverwrite | crates/portos-kernel/src/ledger/codec.rs:133-155 | along any run of operations the partial upserts leave exactly the tables a whole-state overwrite would |
| Persistence.EncodedDecodable | crates/portos-kernel/src/ledger/codec.rs:157-306 | the tables of a valid ledger decode, row by row, to its rows |
| Persistence.EncodeInjective | crates/portos-kernel/src/ledger/codec.rs:157-306 | two valid ledgers with the same tables are the same ledger |
| Persistence.ClassesKept | crates/portos-kernel/src/ledger/codec.rs:135 | a stored class is never rewritten, whatever a snapshot lists |
| Persistence.ClassesAdded | crates/portos-kernel/src/ledger/codec.rs:135 | a class that is not stored yet is stored as it is first listed |
| LedgerOpen.DecodeHoldings | crates/portos-kernel/src/ledger/codec.rs:224-293 | rows are decoded in id order; decoding fails exactly when some row is corrupt |
| LedgerOpen.DecodedState | crates/portos-kernel/src/ledger/codec.rs:157-306 | decoding the tables of a valid ledger yields an acceptable snapshot of exactly that ledger |
| LedgerOpen.EncodedKeyed | crates/portos-kernel/src/ledger/codec.rs:133-155 | the tables of a valid ledger repeat the key column in each row, so opening them is always possible |
| LedgerOpen.Open | crates/portos-kernel/src/ledger.rs:130-157 | a store opens only on a checked ledger that the tables decode to, and on the tables of a valid ledger it opens with exactly that ledger |
| LedgerStorage.Perform | crates/portos-kernel/src/ledger.rs:412-469 | one operation of a transaction body has exactly the effect of its transition on the staged ledger |
| LedgerStorage.LedgerStore.Transaction | crates/portos-kernel/src/ledger.rs:160-231 | stale views, exhausted revisions, refusals, failed rollbacks and failed commits leave exactly the stated database, view and writability; a success commits before it publishes |
| LedgerStorage.LedgerStore.BeginRead | crates/portos-kernel/src/ledger.rs:249-276 | a view that is behind is never shown; a view that is shown is the stored one |
| StoreProtocol.StepLinear | crates/portos-kernel/src/ledger.rs:160-231 | each event of any store leaves one linear history, extended only by the state computed from the last commit |
| StoreProtocol.RunLinear | crates/portos-kernel/src/ledger.rs:160-276 | whatever several stores on one database do, in any interleaving and with any faults, the commits form one linear history with no lost update |
| StoreProtocol.MatchingViewIsExact | crates/portos-kernel/src/ledger.rs:249-276 | a store at the stored revision holds exactly the stored snapshot; a store that is behind can neither write nor keep writing |
| StoreProtocol.TransactAnswers | crates/portos-kernel/src/ledger.rs:160-231 | a transaction answers by its first obstacle; only a success moves the view, and only a success or a failed commit that landed moves the database |
| StoreProtocol.LatchedForever | crates/portos-kernel/src/ledger.rs:160-276 | a store that was behind, failed to commit or failed to roll back neither reads nor writes again in any run until it is opened anew |
| StoreProtocol.ReadIsCurrent | crates/portos-kernel/src/ledger.rs:249-276 | a read that shows anything shows the last commit of all; a store that is behind is latched by asking |
| Accounts.NeverOverdrawn | crates/portos-kernel/src/ledger.rs:285-302 | no counted pool of a valid ledger is overdrawn |
| Accounts.CountBalance | crates/portos-kernel/src/ledger.rs:285-302 | the balance is capacity minus the sum of occupying claims, and the overdrawn error is unreachable |
| Accounts.SpendExact | crates/portos-kernel/src/ledger.rs:522-544 | one spend is granted exactly when the balance covers it, takes exactly that much and touches no other balance |
| Accounts.SpendManyExact | crates/portos-kernel/src/ledger.rs:233-248 | a batch succeeds exactly when every pool covers its whole demand; then each balance falls by exactly that demand |
| Accounts.TransferAll | crates/portos-kernel/src/ledger.rs:364-377 | every active holding of the owner, and nothing else, changes hands; the result counts them |
| Accounts.SpendMany | crates/portos-kernel/src/ledger.rs:233-248 | through a store a batch of spends is all or nothing, whatever faults: the tables hold none or all of it, and all of it with an error only when a failed commit had landed; over account pools it succeeds only when every pool covers its whole demand and is refused only when one does not |
| Payments.BatchReceipts | crates/portos-kernel/src/ledger.rs:522-544 | a batch that goes through adds, for each spend that costs something and in order, one active claim of the spender without lease, parent or obligation, and changes nothing else |
| Payments.HandedExact | crates/portos-kernel/src/ledger.rs:364-377 | exactly the active rows of the owner change hands |
| RunnerSpec.AttemptEffect | crates/portos-kernel/src/ledger/cleanup.rs:157-206 | one claim, execution and finish on a valid state always completes and has exactly the stated effect |
| RunnerSpec.LogEffect | crates/portos-kernel/src/ledger/cleanup.rs:113-216 | the whole effect of a call: discharged rows are retired, failed attempts recorded, everything else untouched |
| RunnerSpec.AtMostOnce | crates/portos-kernel/src/ledger/cleanup.rs:150-165 | no task is executed twice in one call |
| RunnerSpec.ChildrenFirst | crates/portos-kernel/src/ledger/cleanup.rs:113-216 | a holding is acted on only after every descendant this call acts on |
| Runner.RecoverWorkers | crates/portos-kernel/src/ledger/cleanup.rs:93-112 | every attempt whose worker is gone becomes retryable and nothing else changes |
| Runner.Permitted | crates/portos-kernel/src/ledger/cleanup.rs:125-148 | the permitted set is exactly the scope and its retiring ancestors |
| Runner.RecoveredExact | crates/portos-kernel/src/ledger/cleanup.rs:93-112 | recovery leaves exactly the running attempts of gone workers interrupted and everything else as it was |
| Runner.AllowedExact | crates/portos-kernel/src/ledger/cleanup.rs:125-148 | a scope allows itself and exactly what retires on a chain of parents above it |
| CleanupAnswers.CallAnswers | crates/portos-kernel/src/ledger/cleanup.rs:166-206 | in a call every attempt on a target the executor can act on has exactly its answer as outcome, leaves it on record, and retires its row if and only if the answer is confirmed or absent; every other row and record is untouched |
| CleanupAnswers.RetiresAsAnswered | crates/portos-kernel/src/ledger/cleanup.rs:166-206 | a row in the care of an executor retires in a call only if the executor said it is gone; an unresolved row never does |
| RunnerMain.TryTask | crates/portos-kernel/src/ledger/cleanup.rs:157-206 | claim, ask the world unless the target is accounting or unresolved, finish: the attempt carries that answer; refused only at the attempt limit, waiting only when running, done or above an occupying child |
| RunnerMain.RunCleanup | crates/portos-kernel/src/ledger/cleanup.rs:113-216 | the passes terminate; every attempt has the answer the world gave, and a row retires exactly when it says the resource is gone; completed are exactly the rows retired, pending the open tasks in scope; on return every permitted open task had a failing attempt in this call, is running under another worker, or has an occupying child |
| RunnerMain.ReportExact | crates/portos-kernel/src/ledger/cleanup.rs:196-216 | completed are exactly the rows the call retired, each once; pending exactly the open tasks in scope, by id |
| Teardown.TeardownComplete | crates/portos-kernel/src/ledger/cleanup.rs:255-276 | when every answer confirms, no target is unresolved, no foreign worker runs and no attempt counter is exhausted, maximal progress leaves the whole closure retired |
| Teardown.RequestTeardown | crates/portos-kernel/src/ledger/cleanup.rs:265-276 | requests exactly the occupying closure of the owner on a staged view |
| Teardown.TeardownOwner | crates/portos-kernel/src/ledger/cleanup.rs:255-276 | teardown takes exactly what the owner holds and everything occupying below it to maximal progress, and in the cooperative case succeeds with all of it retired |
| Teardown.Sweep | crates/portos-kernel/src/ledger/cleanup.rs:236-254 | after a sweep nothing is due and every open task is stuck for a stated reason |
| Teardown.TeardownScope | crates/portos-kernel/src/ledger/cleanup.rs:265-276 | a teardown is about exactly what the owner holds and everything occupying below it |
| SharedRuns.QuietForever | crates/portos-rm/src/ledger/cleanup.rs:130-169 | once nothing below a retiring holding occupies, nothing below it ever occupies again, whatever operations follow |
| SharedRuns.ClaimedChildrenFirst | crates/portos-rm/src/ledger/cleanup.rs:90-128 | after a task was claimed no worker is ever handed a task of a holding below it, whatever transactions come in between |
| SharedRuns.TaskDischargedOnce | crates/portos-rm/src/ledger/cleanup.rs:130-190 | after one accepted discharge of a task no claim hands it out and no finish of any work value of it is accepted, whoever holds it |
| SharedRuns.SharedCallOrder | crates/portos-kernel/src/ledger/cleanup.rs:113-216 | among arbitrary transactions of others between its own, a call that keeps an attempted set is never handed a task below one it was handed before |
| SharedRuns.FinishAnswers | crates/portos-rm/src/ledger/cleanup.rs:130-169 | whatever others did meanwhile, the finish of claimed work is refused only when the record is no longer the one handed out, and then as stale |
| SharedRuns.SharedAnswers | crates/portos-kernel/src/ledger/cleanup.rs:166-206 | the same of each finish in a call among others: its outcome is the world's answer, and where it is accepted the row retires exactly when the resource is gone |
| SharedRunner.SharedStore.RunCleanup | crates/portos-kernel/src/ledger/cleanup.rs:93-216 | with anything done by others between any two of its transactions and while its executor works, a call ends, is handed no task twice, finishes what it holds with the outcome of the world, and on success has had no turn refused, reports exactly its discharges and the tasks open then, and in its last pass found every permitted open task running, done or above an occupying child unless it had been handed it; it fails only at the attempt limit or on a record that someone else ended |
| SharedRunner.SharedStore.Pass | crates/portos-kernel/src/ledger/cleanup.rs:118-206 | one pass settles every task of its listing that is open and permitted: it was handed to this call, or was busy when the call asked for it |
| Protocol.Check | crates/portos-rm/src/protocol.rs:57-78 | a draft is accepted exactly when all names are non-empty and no state and verb repeat; the automaton holds exactly the listed transitions and verbs |
| Protocol.PrefixClosed | crates/portos-rm/src/protocol.rs:6-7 | an illegal prefix is never made good |
| Protocol.CheckSequence | crates/portos-rm/src/protocol.rs:111-120 | accepts exactly the legal sequences and otherwise reports the first violation |
| Protocol.Reach | crates/portos-rm/src/protocol.rs:122-160 | the state-set analysis returns exactly the end states when every path is legal, and otherwise a verb and state that some path really reaches, for any bound and nesting |
| Protocol.VerdictExact | crates/portos-rm/src/protocol.rs:122-160 | the analysis succeeds if and only if every path is legal from every state |
| Protocol.CheckPlan | crates/portos-rm/src/protocol.rs:164-167 | the check from the initial state accepts if and only if every path is legal |
| Protocol.CheckPlanWorldOrder | crates/portos-rm/src/protocol.rs:170-181 | the check accepts if and only if every immediate projection followed by every withheld projection, of possibly different paths, is legal; acceptance implies every reordered path is legal |
| Protocol.LoopNotExact | crates/portos-rm/src/protocol.rs:14-17 | with a loop and no branch it is not: a concrete plan whose reorderings are all legal is refused |
| Reordering.ExactCondition | crates/portos-rm/src/protocol.rs:14-17 | over the automata an accepted draft describes, the world-order check is exact for a plan if and only if every split order is, verb by verb and leaving out nameless verbs, the beginning of the world order of some single path |
| Reordering.TrapSeparates | crates/portos-rm/src/protocol.rs:14-17 | for a split order that no path shows, some automaton that a draft can build allows every reordering of the plan and is refused by the check |
| Reordering.OneSidedExact | crates/portos-rm/src/protocol.rs:170-181 | with nothing withheld, or everything, the check is exact for every plan, loops and branches included |
| Reordering.StraightExact | crates/portos-rm/src/protocol.rs:14-17 | without branches and loops the check is exact whatever is withheld |
| PlanShapes.EnumeratePaths | crates/portos-rm/src/protocol.rs:206-249 | the reference enumeration lists exactly the concrete paths |
| PlanShapes.ProjectForward | crates/portos-rm/src/protocol.rs:185-201 | the projection of every path is a path of the projected plan |
| PlanShapes.ProjectBack | crates/portos-rm/src/protocol.rs:185-201 | every path of the projected plan is the projection of some path |
| Coeffect.Merge | crates/portos-rm/src/coeffect.rs:240-247 | the entry loop adds class by class and keeps no explicit zero |
| Coeffect.Join | crates/portos-rm/src/coeffect.rs:262-269 | the entry loop takes the larger amount class by class |
| Coeffect.DemandPathsExact | crates/portos-rm/src/coeffect.rs:437-446 | per effect class the path demand is never exceeded by a concrete path, and some path attains it |
| Coeffect.SumDominates | crates/portos-rm/src/coeffect.rs:422-432 | the occurrence sum dominates the path demand; both agree on capabilities and dependencies |
| Coeffect.SumExact | crates/portos-rm/src/coeffect.rs:422-446 | without branches both analyses coincide |
| Coeffect.AdmitPlan | crates/portos-rm/src/coeffect.rs:564-590 | admits exactly when the sum is covered component by component, with genuine errors; success means every concrete path fits, class by class and name by name |
| Coeffect.NamesExact | crates/portos-rm/src/coeffect.rs:422-446 | capabilities and dependencies of a plan are exactly those of the verbs written in it |
| PlanIr.OccIsDemand | crates/portos-kernel/src/plan_ir.rs:15-32 | the occurrence count of a verb is the law-side demand of the projected plan |
| PlanIr.OccWithinSteps | crates/portos-kernel/src/plancheck.rs:113-123 | no verb occurs more often than the step count |
| PlanIr.TextOrderTotal | crates/portos-kernel/src/plans/interpreter/eval.rs:137-143 | text comparison is total, and equal exactly on equal texts |
| PlanIr.TextOrderTransitive | crates/portos-kernel/src/plans/interpreter/eval.rs:137-143 | text comparison is transitive |
| PlanIr.CmpExact | crates/portos-kernel/src/plans/interpreter/eval.rs:104-118 | comparison is defined exactly on two numbers or two texts; there the six operators agree with one total order, on texts themselves and on the doubles of numbers |
| PlanIr.WholeOrder | crates/portos-kernel/src/plans/interpreter/eval.rs:137-143 | whole numbers are never compared the wrong way round, and up to 2^53 in magnitude exactly |
| PlanIr.WholesCollide | crates/portos-kernel/src/plans/interpreter/eval.rs:137-143 | the two whole numbers 2^53 and 2^53 + 1 compare equal |
| Doubles.ToDoubleMonotone | crates/portos-kernel/src/plans/interpreter/eval.rs:137-143 | the conversion of whole numbers to doubles, to nearest with ties to even, never swaps two numbers |
| Doubles.RoundNearest | crates/portos-kernel/src/plans/interpreter/eval.rs:137-143 | the conversion moves a number by at most half the distance of neighbouring doubles |
| PlanCheck.WalkListCounts | crates/portos-kernel/src/plancheck.rs:103-183 | an accepted walk has added exactly the static steps, nodes and occurrences, scaled by the multiplier |
| PlanCheck.WalkIsThreePasses | crates/portos-kernel/src/plancheck.rs:1-6 | the one interleaved walk accepts exactly what the depth, step and label passes accept separately |
| PlanAnnotations.WalkRecords | crates/portos-kernel/src/plancheck.rs:153-157 | an accepted walk records exactly the effect sites of the plan, with label and multiplier |
| PlanAnnotations.AnnsSum | crates/portos-kernel/src/plancheck.rs:148-157 | the multipliers recorded for a verb add up to its occurrences |
| PlanReadings.ExprDerives | crates/portos-kernel/src/plancheck.rs:185-216 | an expression has a label exactly when all it reads is known, and an atom is in it exactly when it is in the label of a verb or variable read |
| PlanReadings.JoinLeast | crates/portos-proto/src/label.rs:41-48 | the join is the least label above both |
| PlanFlow.PassExact | crates/portos-kernel/src/plancheck.rs:103-183 | the label pass accepts a plan exactly when every event of its text is in order; an atom is in the annotation of an effect exactly when it flows there from a verb that is read, through arguments, the last bindings of variables, and the guards and lists around |
| PlanText.UnrolledCounts | crates/portos-kernel/src/plancheck.rs:113-177 | steps and occurrences are those of the text unrolled, loops to their bounds and both arms of branches |
| PlanText.TermsCount | crates/portos-kernel/src/plancheck.rs:113-216 | the node count is the number of statements and expressions written |
| PlanText.DepthExact | crates/portos-kernel/src/plancheck.rs:103-112 | the depth test bounds the branches and loops around a list |
| PlanRefusals.BlockRefused | crates/portos-kernel/src/plancheck.rs:103-216 | every error of the walk is about something written in the plan: an undeclared verb in its use, a variable read, an external verb performed under a secret label, a list one level too deep, or an excess over a limit |
| PlanAdmission.Walk.LabelExpr | crates/portos-kernel/src/plancheck.rs:185-216 | the static label and the node count of an expression |
| PlanAdmission.Walk.WalkStmt | crates/portos-kernel/src/plancheck.rs:113-181 | one statement of the walk in machine arithmetic equals the exact walk |
| PlanAdmission.Walk.WalkStmts | crates/portos-kernel/src/plancheck.rs:103-183 | accepted or rejected, the walk in saturating u64 arithmetic equals the exact one: nothing saturates or overflows |
| PlanAdmission.MultiplierBounded | crates/portos-kernel/src/plancheck.rs:113-177 | a multiplier that was accepted as a step never saturates when scaled by a u32 bound |
| PlanAdmission.BudgetIsDemand | crates/portos-kernel/src/plancheck.rs:147 | the admitted budget of every verb equals the law-side demand of the projected plan and covers every concrete path |
| PlanAdmission.Admit | crates/portos-kernel/src/plancheck.rs:88-101 | a plan is admitted exactly when admissible, and refused with the first error of the exact walk; steps, budgets and sizes are the static counts, the annotations are the effect sites in order with exactly the atoms that flow to them, and their multipliers add up to the budget |
| PlanAdmission.AdmissibleExact | crates/portos-kernel/src/plancheck.rs:88-183 | a plan is admissible exactly when at most 15 branches and loops surround a list, it unrolls to at most 100000 statements, has at most 4096 terms, reads only what is known, and lets no secret flow to an external effect |
| PlanFrames.ListOnward | crates/portos-kernel/src/plans/interpreter.rs:93-168 | no run takes terms away from a capability it holds; without a resume it gains none |
| PlanRuns.ListFollows | crates/portos-kernel/src/plans/interpreter.rs:93-168 | unless an escalating loop is resumed the effects performed are a prefix of a path of the projected plan, and a whole path when the run reaches its end |
| PlanRuns.ListSteps | crates/portos-kernel/src/plans/interpreter.rs:93-168 | under the same condition the statements executed never exceed the static step count |
| PlanRuns.RunWithinBounds | crates/portos-kernel/src/plans/interpreter.rs:93-265 | under the same condition, however a run ends, its steps and its emitted plus withheld effects of each verb stay within the static counts |
| PlanLogs.ListKeepsSorted | crates/portos-kernel/src/plans/interpreter.rs:198-265 | in every run the emission log holds the immediate effects and the buffer the withheld ones, each in program order with consecutive numbers and unit costs; every effect followed the policy, and no external one ran under a confidential label |
| PlanBudget.ExerciseDecides | crates/portos-kernel/src/caps.rs:209-220 | the loop stops at the first usable candidate and charges it alone; otherwise the last candidate gives the reason |
| PlanBudget.GateExact | crates/portos-kernel/src/caps.rs:176-221 | the gate opens exactly when some live, unexpired capability has units or is uncounted; it reports a missing capability exactly when none is live; otherwise the last live one decides between expired and exhausted |
| PlanBudget.GatePays | crates/portos-kernel/src/caps.rs:129-168 | one exercise costs at most one unit of the called verb and nothing of any other, and opens while a lasting grant has units or leaves the verb uncounted |
| PlanFunds.ListPaid | crates/portos-kernel/src/plans/interpreter.rs:93-265 | every call for a verb funded for its performances and reads together passes the gate, reads included, and a run pays at most that need |
| PlanSignals.SignalsUnread | crates/portos-kernel/src/plans/interpreter.rs:145-150 | a plan without escalating loops never looks at the signals in store: they change nothing in its run |
| PlanStart.ConsentBook.CheckAndConsume | crates/portos-kernel/src/plans/admission.rs:103-128 | a consent passes exactly when genuine, in time, for this plan and unused, and is then used; the refusals in order |
| PlanStart.MintFiberCaps | crates/portos-kernel/src/plans/admission.rs:135-164 | the loop mints one capability per family with exactly the demanded verbs, the consented counts and the consent's end |
| PlanStart.MintCovers | crates/portos-kernel/src/plans/admission.rs:135-164 | minting covers exactly the verbs it was asked for |
| PlanStart.MintLeft | crates/portos-kernel/src/plans/admission.rs:135-164 | a demanded and consented verb starts with exactly the consented count |
| PlanStart.CheckConsent | crates/portos-kernel/src/plans/lifecycle.rs:102-110 | finds a verb over the consent exactly when there is one |
| PlanStart.Start | crates/portos-kernel/src/plans/lifecycle.rs:93-111 | a run starts exactly when the consent passes, the plan is admissible and its derived budget fits; a passing consent is used up even when the plan is refused |
| PlanStart.ReadsObserved | crates/portos-kernel/src/plancheck.rs:185-216 | an admitted plan reads only what its system declares readable |
| PlanStart.MintCounted | crates/portos-kernel/src/plans/admission.rs:142-150 | a minted verb is counted exactly when the consent names it, be it performed or only read |
| PlanStart.FundedRun | crates/portos-kernel/src/plans/interpreter.rs:93-265 | a started plan without escalating loops, whose consent suffices for any set of demanded verbs with the performed ones among them, executes at most S_MAX statements, performs each verb at most as often as consented, is never stopped at an effect or suspended for budget, and has every call for a verb of the set pass, whatever the world answers, as long as the calls it makes happen by issue plus ttl on live capabilities |
| PlanStart.AdmittedRun | crates/portos-kernel/src/plans/interpreter.rs:93-265 | when the consent suffices for the performances and reads of every demanded verb that is performed or that it counts, every call for a demanded verb passes the gate |
| PlanStart.SeparateSuffices | crates/portos-kernel/src/plans/lifecycle.rs:102-110 | where no verb is both read and performed, the consent check at the start suffices for the effects, and for all demanded verbs exactly when what the consent counts of readable ones covers their reads |
| PlanStart.SeparateRun | crates/portos-kernel/src/plans/lifecycle.rs:102-110 | there no effect is ever stopped for budget, and if the consent names no readable verb every call for a demanded verb passes |
| PlanStart.StartedFresh | crates/portos-kernel/src/plans/lifecycle.rs:111-131 | a run starts with nothing bound, logged or withheld, under the nonce of its consent, with one grant for exactly the demanded verbs, counted and ending as consented |
| PlanReach.DemandCovers | crates/portos-kernel/src/plans/admission.rs:174-196 | the minted capabilities cover every verb the plan may reach if and only if everything read in effect arguments is also demanded elsewhere |
| PlanReach.CallsInForce | crates/portos-kernel/src/caps.rs:129-168 | in every run each call is for a verb the plan may reach, and a call that passes does so under a capability that is live and unexpired at that call |
| PlanReach.DemandedFound | crates/portos-kernel/src/plans/admission.rs:130-164 | while the minted capabilities last, no call for a demanded verb misses its capability; under the condition of `DemandCovers` no call does |
| PlanReach.UndemandedStops | crates/portos-kernel/src/plans/admission.rs:174-196 | without escalating loops, or without a resume, each call for a verb outside the demand misses its capability, is the last call, and stops the run at that verb |
| PlanReach.CallsDecided | crates/portos-kernel/src/plans/interpreter.rs:93-265 | under the conditions of `AdmittedRun` a call passes the gate exactly when its verb is demanded and misses its capability otherwise; none is ever refused for budget |
| PlanLimits.ArgumentReadRefused | crates/portos-kernel/src/plans/admission.rs:174-196 | a read, or a pure computation, in an effect argument is outside the demand: an admitted plan that stops at that call whatever the consent |
| PlanLimits.SharedVerbExhausts | crates/portos-kernel/src/plans/interpreter.rs:224-265 | a verb read once and performed once, with consent for one: an admitted and started plan that is refused for budget at its effect |
| PlanLimits.CountedReadExhausts | crates/portos-kernel/src/plans/admission.rs:133-150 | a plan that only reads starts under every consent, and is refused for budget at its read exactly when the consent counts that verb at zero, which is exactly when it does not suffice |
| PlanLimits.ExpiredConsentStops | crates/portos-kernel/src/caps.rs:129-221 | past issue plus ttl an admitted and started effect is refused: for lack of budget once the holding was swept, as a failed call before that |
| PlanLimits.ResumedOverrun | crates/portos-kernel/src/plans/interpreter.rs:145-150 | a resumed escalating loop of an admitted and started plan executes more statements than its step bound and more effects than its budget |
| PlanLabels.ExprSound | crates/portos-kernel/src/plans/interpreter/eval.rs:10-86 | the run-time label of an expression is below the label the walk derived at that site |
| PlanLabels.GuardSound | crates/portos-kernel/src/plans/interpreter/eval.rs:88-134 | the run-time label of a guard is below the label the walk derived at that site |
| PlanLabels.EffectSound | crates/portos-kernel/src/plans/interpreter.rs:172-208 | the effective label of an effect is below the annotation of its site, and the sink re-check does not fire |
| PlanLabels.LoopSound | crates/portos-kernel/src/plans/interpreter.rs:120-165 | whatever the items, a loop at an admitted site keeps every variable below its admitted label and every performed effect below an annotation of its verb |
| PlanLabels.RunLabels | crates/portos-kernel/src/plans/interpreter.rs:198-208 | for an admitted plan that binds each name at one site, in every run each performed effect ran under a label below an annotation of its verb in the admission record, every variable stays below its admitted label, and the sink re-check never fires |
| PlanLabels.RebindingReachesSink | crates/portos-kernel/src/plans/interpreter.rs:150-164 | with a rebound name it can: a concrete admitted plan reaches the run-time sink check |
| PlanSights.RunSights | crates/portos-kernel/src/plans/interpreter/eval.rs:10-134 | for such a plan, every label a run meets at a statement, in its expression, its arguments or its guard, and the program counter it meets it under, lie below the label and counter the walk derived at a site of that very statement |
| PlanSights.ListSeen | crates/portos-kernel/src/plans/interpreter.rs:93-168 | that record holds one entry for each executed statement, except perhaps a last one that stopped while evaluating |
| PlanGuards.ExistsExact | crates/portos-kernel/src/plans/interpreter/eval.rs:90-97 | a value exists unless it is null or the empty list |
| PlanGuards.PairExact | crates/portos-kernel/src/plans/interpreter/eval.rs:120-129 | conjunction and disjunction evaluate both sides in order and combine their verdicts |
| PlanGuards.NotExact | crates/portos-kernel/src/plans/interpreter/eval.rs:130-133 | negation turns the verdict over and keeps the label |
| PlanGuards.DeMorgan | crates/portos-kernel/src/plans/interpreter/eval.rs:120-133 | De Morgan's laws hold of whole evaluations: the same calls, label and verdict |
| PlanGuards.BranchExact | crates/portos-kernel/src/plans/interpreter.rs:102-110 | a branch runs its first arm exactly when its guard holds, its second when not, under the joined label |
| PlanGuards.NotSwapsArms | crates/portos-kernel/src/plans/interpreter.rs:102-110 | negating a guard swaps the arms and changes nothing else about a run |
| PlanGuards.MatchesExact | crates/portos-kernel/src/plans/interpreter/eval.rs:98-104 | a pattern matches texts only; a broken pattern stops the run |
| PlanMachineRuns.MachineMeans | crates/portos-kernel/src/plans/interpreter.rs:93-314 | an abstract machine with every rule written out, one instruction at a time over a value stack, finishes from every state exactly where the meaning of the plan does, with the same state and outcome |
| PlanMachineRuns.FinishesOnce | crates/portos-kernel/src/plans/interpreter.rs:93-168 | where the machine finishes is unique |
| Interpreter.Machine.Invoke | crates/portos-kernel/src/caps.rs:176-221 | the new machine state and the answer are those of the meaning of the gate and the call, with the time and the liveness of holdings at that call |
| Interpreter.Machine.Eval | crates/portos-kernel/src/plans/interpreter/eval.rs:10-86 | the new machine state and the answer are those of the meaning of an expression |
| Interpreter.Machine.EvalArgs | crates/portos-kernel/src/plans/interpreter/eval.rs:22-27 | the new machine state and the answer are those of the meaning of an argument list |
| Interpreter.Machine.EvalGuard | crates/portos-kernel/src/plans/interpreter/eval.rs:88-134 | the new machine state and the answer are those of the meaning of a guard, both sides always evaluated |
| Interpreter.Machine.ParkForResume | crates/portos-kernel/src/plans/interpreter.rs:318-362 | the new machine state and the answer are those of the meaning of a suspension and what ends it, half-minted resumes included |
| Interpreter.Machine.PushBuffer | crates/portos-kernel/src/plans/store.rs:89-115 | the new machine state and the answer are those of the meaning of a withheld effect under the next number, with a write that may fail |
| Interpreter.Machine.Emit | crates/portos-kernel/src/plans/interpreter.rs:221-314 | the new machine state and the answer are those of the meaning of the budget gate, the call and the retry of escalating loops |
| Interpreter.Machine.ExecEffect | crates/portos-kernel/src/plans/interpreter.rs:172-315 | the new machine state and the answer are those of the meaning of an effect: sink check, withholding, gate |
| Interpreter.Machine.ExecStmt | crates/portos-kernel/src/plans/interpreter.rs:94-166 | the new machine state and the answer are those of the meaning of a statement, the three loop modes included |
| Interpreter.Machine.ExecItems | crates/portos-kernel/src/plans/interpreter.rs:153-164 | the new machine state and the answer are those of the meaning of the iterations of a loop |
| Interpreter.Machine.ExecStmts | crates/portos-kernel/src/plans/interpreter.rs:93-168 | the new machine state and the answer are those of the meaning of a statement list |
| Interpreter.ExerciseFirst | crates/portos-kernel/src/caps.rs:209-220 | candidates are tried in order and the first that exercises cleanly wins, at the time and with the live holdings of that call |
| Approval.PlanRun.constructor | crates/portos-kernel/src/plans/interpreter.rs:34-69 | a finished run completes, awaits approval, or drops its buffer |
| Approval.PlanRun.LoadBuffer | crates/portos-kernel/src/plans/store.rs:69-87 | loads exactly the held items in order |
| Approval.PlanRun.MarkBuffer | crates/portos-kernel/src/plans/store.rs:165-178 | changes exactly the row with the given number |
| Approval.PlanRun.SetBufferState | crates/portos-kernel/src/plans/store.rs:151-163 | moves exactly the rows in the given state |
| Approval.NeedExact | crates/portos-kernel/src/plans/approval.rs:31-35 | the need of a batch sums the costs verb by verb and names exactly its verbs |
| Approval.ReleaseLog | crates/portos-kernel/src/plans/approval.rs:68-92 | the emission log grows by exactly the released prefix of the batch, in order |
| Approval.ReleaseEntries | crates/portos-kernel/src/plans/approval.rs:68-91 | each released entry carries its item's verb and target, the approving nonce and the next number |
| Approval.ApprovalNeverShort | crates/portos-kernel/src/plans/approval.rs:46-64 | while the capabilities minted for the need of a batch last through the calls of its release, it stops only when the world fails a call, never at the gate, whatever became of older capabilities |
| Approval.PlanRun.Release | crates/portos-kernel/src/plans/approval.rs:65-92 | items are invoked, logged and marked one by one; the first failure stops the batch |
| Approval.PlanRun.Approve | crates/portos-kernel/src/plans/approval.rs:15-118 | the refusals in order: not awaiting, original consent run out, fresh consent refused, budget short; each leaves the run as it was, and a consent that passed is used up. Otherwise exactly the released prefix of the held rows is inserted and the rest inserted or dropped with the outcome |
| Approval.RunLeaves | crates/portos-kernel/src/plans/interpreter.rs:93-168 | a run that reached its end leaves a path of the plan, sorted logs and a buffer of unit costs |
| Approval.WorldSees | crates/portos-kernel/src/plans/approval.rs:65-112 | a complete run and approval show the world the immediate effects in program order, then the withheld ones in program order, of one path of the plan |
| Approval.AcceptedWorldOrder | crates/portos-rm/src/protocol.rs:170-181 | if the world-order check accepts, that is, every split order is legal, the emission log of the run and its approval is the world order of its path and is protocol-legal |
| Approval.RunPlan | crates/portos-kernel/src/plans/lifecycle.rs:51-131 | start, run and record: a run begins exactly when consented and admissible, its record is the one of the meaning, its steps and effects stay within S_MAX and the consent, no effect is stopped for budget when the consent suffices for the performed verbs, no call at all is when it suffices for every demanded verb, and no sink check fires when each name is bound once |
| Approval.RunAndApprove | crates/portos-kernel/src/plans/approval.rs:15-118 | from the first consent to the last withheld effect: a completed record logs one path of the plan, immediate effects first, within the consent; a stopped release under a lasting consent means the world failed a call; the same nonce never pays twice |
| Approval.ReleasedRows | crates/portos-kernel/src/plans/approval.rs:65-112 | of the held rows, in order, the released ones are inserted and the rest inserted or dropped with the outcome; no other row and no item changes |

## Left out

- LedgerClosures.SettleAndZeroPool: when several rows of one depth refuse, which of their reasons is reported is left open; the transition function it is compared with for success names one reason by a simpler rule.
- LedgerBuild.CheckInvariant: states whether the checker accepts, not which error it reports first.
- LedgerBuild.Build: states whether a snapshot is accepted, not which error it reports first.
- LedgerStorage.LedgerStore.Transaction: a refused body is reported without the reason of the refusing operation.
- LedgerOpen.Open: reports a corrupt or unacceptable database without a reason; tables are assumed to repeat the key column in each row.
- Accounts.SpendMany: the exact outcome is stated over counted accounting pools with enough free holding ids, as account creation provides them; the account-to-pool binding table is a parameter.
- RunnerMain.RunCleanup: runs alone on a ledger view, where its progress speaks of the state it leaves. With others acting in between it is `SharedRunner.SharedStore.RunCleanup`, whose progress speaks of the moments of its last pass; transactions there do not fail for reasons of storage.
- Approval.PlanRun.Approve: one run's rows; the code of a consent is one parameter, minting does not fail, and crash points between invoking and marking an item are not modelled.
- Interpreter.Machine.ParkForResume: a run nobody signals any more expires; the families minted before a failed mint are a parameter of the signal.
- Interpreter.Machine.Emit: writes of the emission log do not fail (the code ignores such a failure and goes on).
- PlanStart.Start: minting the first capabilities and reading the stored plan do not fail.
- The segment of a run (transfer on commit, teardown on abort), audit records and emitted client events.
- Release with world, teardown of one holding or incarnation, capability retirement and open-time reconciliation: the same requests and the same runner under other scopes.
- Active-row subtrees, live items with revert grades, tombstone counts and the older ledger reconcile entry point.
- Legacy migration of stored graphs, SQL and JSON spelling, and the cleanup record encoding.
- Panic unwinding, mutex poisoning, threads, processes, files, ports, plugins, client channels and the command line.
- Capability attenuation as an order, verb declarations, the scalar laws of coeffects and the mount check.
- Noninterference: the label rules do not join the program counter into variables.
