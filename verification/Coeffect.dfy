// Demand vectors of plans: the occurrence sum, the exact path maximum, and admission.

module Coeffect {
  import opened Prelude
  import opened PlanShapes

  // ----- budgets: finitely supported counts without explicit zeros -----

  type Counts = map<Name, nat>

  predicate NoZeros(m: Counts) {
    forall k :: k in m ==> m[k] > 0
  }

  type Budget = m: Counts | NoZeros(m)

  function Get(m: Counts, k: Name): nat {
    if k in m then m[k] else 0
  }

  function Normalized(m: Counts): Budget {
    map k | k in m && m[k] > 0 :: m[k]
  }

  // Absence and an explicit zero have one representation.
  lemma Extensional(a: Budget, b: Budget)
    requires forall k :: Get(a, k) == Get(b, k)
    ensures a == b
  {
    forall k
      ensures k in a <==> k in b
    {
      assert Get(a, k) == Get(b, k);
    }
    forall k | k in a
      ensures a[k] == b[k]
    {
      assert Get(a, k) == Get(b, k);
    }
  }

  function MergeBudget(a: Budget, b: Budget): (r: Budget)
    ensures forall k :: Get(r, k) == Get(a, k) + Get(b, k)
  {
    map k | k in a.Keys + b.Keys :: Get(a, k) + Get(b, k)
  }

  function Max(a: nat, b: nat): nat {
    if a < b then b else a
  }

  function JoinBudget(a: Budget, b: Budget): (r: Budget)
    ensures forall k :: Get(r, k) == Max(Get(a, k), Get(b, k))
  {
    map k | k in a.Keys + b.Keys :: Max(Get(a, k), Get(b, k))
  }

  function ScaleBudget(n: nat, body: Budget): (r: Budget)
    ensures forall k :: Get(r, k) == n * Get(body, k)
  {
    if n == 0 then map[]
    else
      assert forall k :: k in body ==> n * body[k] > 0;
      map k | k in body :: n * body[k]
  }

  predicate BudgetLeq(a: Budget, b: Budget) {
    forall k :: k in a ==> a[k] <= Get(b, k)
  }

  // The entry loops of merge and join, then the removal of zeros.
  method Merge(a: Budget, b: Budget) returns (r: Budget)
    ensures r == MergeBudget(a, b)
  {
    var m: Counts := a;
    var todo := b.Keys;
    while todo != {}
      invariant todo <= b.Keys
      invariant forall k :: Get(m, k) == Get(a, k) + (if k in todo then 0 else Get(b, k))
      decreases |todo|
    {
      var k :| k in todo;
      m := m[k := Get(m, k) + b[k]];
      todo := todo - {k};
    }
    r := Normalized(m);
    Extensional(r, MergeBudget(a, b));
  }

  method Join(a: Budget, b: Budget) returns (r: Budget)
    ensures r == JoinBudget(a, b)
  {
    var m: Counts := a;
    var todo := b.Keys;
    while todo != {}
      invariant todo <= b.Keys
      invariant forall k :: Get(m, k) == if k in todo then Get(a, k) else Max(Get(a, k), Get(b, k))
      decreases |todo|
    {
      var k :| k in todo;
      m := m[k := Max(Get(m, k), b[k])];
      todo := todo - {k};
    }
    r := Normalized(m);
    Extensional(r, JoinBudget(a, b));
  }

  // ----- requirements -----

  datatype Requires = Requires(caps: set<Name>, deps: set<Name>, uses: Budget) {
    function Merge(other: Requires): Requires {
      Requires(caps + other.caps, deps + other.deps, MergeBudget(uses, other.uses))
    }
    function Join(other: Requires): Requires {
      Requires(caps + other.caps, deps + other.deps, JoinBudget(uses, other.uses))
    }
    // The flat parts do not count repetitions, so a loop of bound zero still needs them.
    function Scale(n: nat): Requires {
      Requires(caps, deps, ScaleBudget(n, uses))
    }
    predicate Leq(other: Requires) {
      caps <= other.caps && deps <= other.deps && BudgetLeq(uses, other.uses)
    }
  }

  const IGN: Requires := Requires({}, {}, map[])

  type Lookup = Leaf -> Requires

  // Every occurrence counted: sequence and branch both add.
  function DemandSum(plan: Plan, lookup: Lookup): Requires
    decreases plan, 0
  {
    match plan
    case Verb(leaf) => lookup(leaf)
    case Seq(items) => DemandSumAll(items, lookup)
    case Loop(bound, body) => DemandSum(body, lookup).Scale(bound)
    case Branch(a, b) => DemandSum(a, lookup).Merge(DemandSum(b, lookup))
  }

  function DemandSumAll(items: seq<Plan>, lookup: Lookup): Requires
    decreases items, 0
  {
    if items == [] then IGN
    else DemandSumAll(items[..|items| - 1], lookup).Merge(DemandSum(items[|items| - 1], lookup))
  }

  // Branches take the larger arm, class by class.
  function DemandPaths(plan: Plan, lookup: Lookup): Requires
    decreases plan, 0
  {
    match plan
    case Verb(leaf) => lookup(leaf)
    case Seq(items) => DemandPathsAll(items, lookup)
    case Loop(bound, body) => DemandPaths(body, lookup).Scale(bound)
    case Branch(a, b) => DemandPaths(a, lookup).Join(DemandPaths(b, lookup))
  }

  function DemandPathsAll(items: seq<Plan>, lookup: Lookup): Requires
    decreases items, 0
  {
    if items == [] then IGN
    else DemandPathsAll(items[..|items| - 1], lookup).Merge(DemandPaths(items[|items| - 1], lookup))
  }

  // What one concrete path uses of one effect class, and which names it needs.
  // The verbs written in a plan, run or not.
  function Leaves(plan: Plan): set<Leaf>
    decreases plan, 0
  {
    match plan
    case Verb(leaf) => {leaf}
    case Seq(items) => AllLeaves(items)
    case Loop(_, body) => Leaves(body)
    case Branch(a, b) => Leaves(a) + Leaves(b)
  }

  function AllLeaves(items: seq<Plan>): set<Leaf>
    decreases items, 0
  {
    if items == [] then {} else AllLeaves(items[..|items| - 1]) + Leaves(items[|items| - 1])
  }

  // Capabilities and dependencies are those of the verbs written, whatever their loops' bounds.
  lemma {:induction false} NamesExact(plan: Plan, lookup: Lookup, c: Name)
    ensures c in DemandSum(plan, lookup).caps <==> exists l :: l in Leaves(plan) && c in lookup(l).caps
    ensures c in DemandSum(plan, lookup).deps <==> exists l :: l in Leaves(plan) && c in lookup(l).deps
    decreases plan, 0
  {
    hide MergeBudget, ScaleBudget;
    match plan {
      case Verb(leaf) =>
      case Seq(items) => AllNamesExact(items, lookup, c);
      case Loop(_, body) => NamesExact(body, lookup, c);
      case Branch(a, b) =>
        NamesExact(a, lookup, c);
        NamesExact(b, lookup, c);
    }
  }

  lemma {:induction false} AllNamesExact(items: seq<Plan>, lookup: Lookup, c: Name)
    ensures c in DemandSumAll(items, lookup).caps <==> exists l :: l in AllLeaves(items) && c in lookup(l).caps
    ensures c in DemandSumAll(items, lookup).deps <==> exists l :: l in AllLeaves(items) && c in lookup(l).deps
    decreases items, 0
  {
    hide MergeBudget, ScaleBudget;
    if items != [] {
      AllNamesExact(items[..|items| - 1], lookup, c);
      NamesExact(items[|items| - 1], lookup, c);
    }
  }

  function Uses(t: Path, lookup: Lookup, k: Name): nat {
    if t == [] then 0 else Uses(t[..|t| - 1], lookup, k) + Get(lookup(t[|t| - 1]).uses, k)
  }

  lemma {:induction false} UsesConcat(t: Path, u: Path, lookup: Lookup, k: Name)
    ensures Uses(t + u, lookup, k) == Uses(t, lookup, k) + Uses(u, lookup, k)
    decreases |u|
  {
    if u == [] {
      assert t + u == t;
    } else {
      var n := |u| - 1;
      assert (t + u)[..|t + u| - 1] == t + u[..n];
      UsesConcat(t, u[..n], lookup, k);
    }
  }

  function Need(plan: Plan, lookup: Lookup, k: Name): nat {
    Get(DemandPaths(plan, lookup).uses, k)
  }

  // ----- the path demand is the maximum -----

  lemma ScaleMonotone(m: nat, n: nat, a: nat, b: nat)
    requires m <= n && a <= b
    ensures m * a <= n * b
  {
    assert m * a <= n * a <= n * b;
  }

  lemma {:induction false} PathWithin(plan: Plan, lookup: Lookup, k: Name, t: Path)
    requires IsPath(plan, t)
    ensures Uses(t, lookup, k) <= Need(plan, lookup, k)
    decreases plan, 0
  {
    hide MergeBudget, JoinBudget, ScaleBudget, IsRounds, IsSeqPath, IsLoopPath, DemandPathsAll;
    match plan {
      case Verb(leaf) => assert t[..0] == [];
      case Seq(items) => SeqPathWithin(items, lookup, k, t);
      case Loop(bound, body) =>
        var n := RoundsOf(body, bound, t);
        RoundsWithin(body, lookup, k, n, t);
        ScaleMonotone(n, bound, Need(body, lookup, k), Need(body, lookup, k));
      case Branch(a, b) =>
        if IsPath(a, t) {
          PathWithin(a, lookup, k, t);
        } else {
          PathWithin(b, lookup, k, t);
        }
    }
  }

  lemma {:induction false} SeqPathWithin(items: seq<Plan>, lookup: Lookup, k: Name, t: Path)
    requires IsSeqPath(items, t)
    ensures Uses(t, lookup, k) <= Get(DemandPathsAll(items, lookup).uses, k)
    decreases items, 0
  {
    hide MergeBudget, JoinBudget, ScaleBudget;
    if items != [] {
      var n := |items| - 1;
      var i := SeqPathSplits(items, t);
      SeqPathWithin(items[..n], lookup, k, t[..i]);
      PathWithin(items[n], lookup, k, t[i..]);
      UsesConcat(t[..i], t[i..], lookup, k);
    }
  }

  lemma {:induction false} RoundsWithin(body: Plan, lookup: Lookup, k: Name, n: nat, t: Path)
    requires IsRounds(body, n, t)
    ensures Uses(t, lookup, k) <= n * Need(body, lookup, k)
    decreases body, n + 1
  {
    hide Need;
    if n > 0 {
      var i := RoundsSplit(body, n, t);
      RoundsWithin(body, lookup, k, n - 1, t[..i]);
      PathWithin(body, lookup, k, t[i..]);
      UsesConcat(t[..i], t[i..], lookup, k);
      assert (n - 1) * Need(body, lookup, k) + Need(body, lookup, k) == n * Need(body, lookup, k);
    }
  }

  lemma {:induction false} PathAttains(plan: Plan, lookup: Lookup, k: Name) returns (t: Path)
    ensures IsPath(plan, t) && Uses(t, lookup, k) == Need(plan, lookup, k)
    decreases plan, 0
  {
    hide MergeBudget, JoinBudget, ScaleBudget;
    match plan {
      case Verb(leaf) =>
        t := [leaf];
        assert t[..0] == [];
      case Seq(items) => t := SeqPathAttains(items, lookup, k);
      case Loop(bound, body) =>
        t := RoundsAttain(body, lookup, k, bound);
        assert IsLoopPath(body, bound, t);
      case Branch(a, b) =>
        if Need(a, lookup, k) < Need(b, lookup, k) {
          t := PathAttains(b, lookup, k);
        } else {
          t := PathAttains(a, lookup, k);
        }
    }
  }

  lemma {:induction false} SeqPathAttains(items: seq<Plan>, lookup: Lookup, k: Name) returns (t: Path)
    ensures IsSeqPath(items, t) && Uses(t, lookup, k) == Get(DemandPathsAll(items, lookup).uses, k)
    decreases items, 0
  {
    hide MergeBudget, JoinBudget, ScaleBudget;
    if items == [] {
      t := [];
    } else {
      var n := |items| - 1;
      assert items == items[..n] + [items[n]];
      var a := SeqPathAttains(items[..n], lookup, k);
      var b := PathAttains(items[n], lookup, k);
      t := a + b;
      UsesConcat(a, b, lookup, k);
      SeqPathGrows(items[..n], items[n], a, b);
    }
  }

  lemma {:induction false} RoundsAttain(body: Plan, lookup: Lookup, k: Name, n: nat) returns (t: Path)
    ensures IsRounds(body, n, t) && Uses(t, lookup, k) == n * Need(body, lookup, k)
    decreases body, n + 1
  {
    hide Need;
    if n == 0 {
      t := [];
    } else {
      var a := RoundsAttain(body, lookup, k, n - 1);
      var b := PathAttains(body, lookup, k);
      t := a + b;
      UsesConcat(a, b, lookup, k);
      RoundsGrow(body, n - 1, a, b);
      assert (n - 1) * Need(body, lookup, k) + Need(body, lookup, k) == n * Need(body, lookup, k);
    }
  }

  // Per effect class the path demand is never exceeded, and is attained.
  lemma DemandPathsExact(plan: Plan, lookup: Lookup, k: Name)
    ensures forall t :: IsPath(plan, t) ==> Uses(t, lookup, k) <= Need(plan, lookup, k)
    ensures exists t :: IsPath(plan, t) && Uses(t, lookup, k) == Need(plan, lookup, k)
  {
    forall t | IsPath(plan, t)
      ensures Uses(t, lookup, k) <= Need(plan, lookup, k)
    {
      PathWithin(plan, lookup, k, t);
    }
    var t := PathAttains(plan, lookup, k);
  }

  // ----- the sum dominates, and agrees on everything flat -----

  lemma {:induction false} SumDominates(plan: Plan, lookup: Lookup, k: Name)
    ensures Need(plan, lookup, k) <= Get(DemandSum(plan, lookup).uses, k)
    ensures DemandPaths(plan, lookup).caps == DemandSum(plan, lookup).caps
    ensures DemandPaths(plan, lookup).deps == DemandSum(plan, lookup).deps
    decreases plan, 0
  {
    hide MergeBudget, JoinBudget, ScaleBudget, DemandPathsAll, DemandSumAll;
    match plan {
      case Verb(_) =>
      case Seq(items) => SumDominatesAll(items, lookup, k);
      case Loop(bound, body) =>
        SumDominates(body, lookup, k);
        ScaleMonotone(bound, bound, Need(body, lookup, k), Get(DemandSum(body, lookup).uses, k));
      case Branch(a, b) =>
        SumDominates(a, lookup, k);
        SumDominates(b, lookup, k);
    }
  }

  lemma {:induction false} SumDominatesAll(items: seq<Plan>, lookup: Lookup, k: Name)
    ensures Get(DemandPathsAll(items, lookup).uses, k) <= Get(DemandSumAll(items, lookup).uses, k)
    ensures DemandPathsAll(items, lookup).caps == DemandSumAll(items, lookup).caps
    ensures DemandPathsAll(items, lookup).deps == DemandSumAll(items, lookup).deps
    decreases items, 0
  {
    hide MergeBudget, JoinBudget, ScaleBudget;
    if items != [] {
      SumDominatesAll(items[..|items| - 1], lookup, k);
      SumDominates(items[|items| - 1], lookup, k);
    }
  }

  // Without branches the two analyses coincide.
  predicate BranchFree(plan: Plan)
    decreases plan
  {
    match plan
    case Verb(_) => true
    case Seq(items) => forall i :: 0 <= i < |items| ==> BranchFree(items[i])
    case Loop(_, body) => BranchFree(body)
    case Branch(_, _) => false
  }

  lemma {:induction false} SumExact(plan: Plan, lookup: Lookup)
    requires BranchFree(plan)
    ensures DemandSum(plan, lookup) == DemandPaths(plan, lookup)
    decreases plan, 0
  {
    match plan {
      case Verb(_) =>
      case Seq(items) => SumExactAll(items, lookup);
      case Loop(bound, body) => SumExact(body, lookup);
    }
  }

  lemma {:induction false} SumExactAll(items: seq<Plan>, lookup: Lookup)
    requires forall i :: 0 <= i < |items| ==> BranchFree(items[i])
    ensures DemandSumAll(items, lookup) == DemandPathsAll(items, lookup)
    decreases items, 0
  {
    if items != [] {
      SumExactAll(items[..|items| - 1], lookup);
      SumExact(items[|items| - 1], lookup);
    }
  }

  // Every leaf of every path needs no more than the flat parts of the sum.
  lemma {:induction false} PathNames(plan: Plan, lookup: Lookup, t: Path, i: nat)
    requires IsPath(plan, t) && i < |t|
    ensures lookup(t[i]).caps <= DemandSum(plan, lookup).caps && lookup(t[i]).deps <= DemandSum(plan, lookup).deps
    decreases plan, 0
  {
    match plan {
      case Verb(_) =>
      case Seq(items) => SeqPathNames(items, lookup, t, i);
      case Loop(bound, body) =>
        var n := RoundsOf(body, bound, t);
        RoundsNames(body, lookup, n, t, i);
      case Branch(a, b) =>
        if IsPath(a, t) {
          PathNames(a, lookup, t, i);
        } else {
          PathNames(b, lookup, t, i);
        }
    }
  }

  lemma {:induction false} SeqPathNames(items: seq<Plan>, lookup: Lookup, t: Path, i: nat)
    requires IsSeqPath(items, t) && i < |t|
    ensures lookup(t[i]).caps <= DemandSumAll(items, lookup).caps &&
              lookup(t[i]).deps <= DemandSumAll(items, lookup).deps
    decreases items, 0
  {
    if items != [] {
      var n := |items| - 1;
      var k := SeqPathSplits(items, t);
      if i < k {
        SeqPathNames(items[..n], lookup, t[..k], i);
      } else {
        PathNames(items[n], lookup, t[k..], i - k);
      }
    }
  }

  lemma {:induction false} RoundsNames(body: Plan, lookup: Lookup, n: nat, t: Path, i: nat)
    requires IsRounds(body, n, t) && i < |t|
    ensures lookup(t[i]).caps <= DemandSum(body, lookup).caps && lookup(t[i]).deps <= DemandSum(body, lookup).deps
    decreases body, n + 1
  {
    if n > 0 {
      var k := RoundsSplit(body, n, t);
      if i < k {
        RoundsNames(body, lookup, n - 1, t[..k], i);
      } else {
        PathNames(body, lookup, t[k..], i - k);
      }
    }
  }

  // ----- admission -----

  datatype AdmitError =
    | ExceedsCeiling(missing: set<Name>)
    | UnmetDependency(missing: set<Name>)
    | OverBudget(cls: Name, demand: nat, budget: nat)

  method FirstExceeding(demand: Budget, budget: Budget) returns (r: Option<Name>)
    ensures r.None? <==> BudgetLeq(demand, budget)
    ensures r.Some? ==> r.value in demand && demand[r.value] > Get(budget, r.value)
  {
    var todo := demand.Keys;
    while todo != {}
      invariant todo <= demand.Keys
      invariant forall k :: k in demand && k !in todo ==> demand[k] <= Get(budget, k)
      decreases |todo|
    {
      var k :| k in todo;
      if demand[k] > Get(budget, k) {
        return Some(k);
      }
      todo := todo - {k};
    }
    return None;
  }

  method AdmitPlan(plan: Plan, lookup: Lookup, ceiling: set<Name>, offered: set<Name>, budget: Budget)
    returns (r: Result<Requires, AdmitError>)
    ensures var d := DemandSum(plan, lookup);
            && (r.Ok? <==> d.Leq(Requires(ceiling, offered, budget)))
            && match r {
                 case Ok(shown) => shown == d
                 case Err(ExceedsCeiling(missing)) => missing == d.caps - ceiling && missing != {}
                 case Err(UnmetDependency(missing)) => d.caps <= ceiling && missing == d.deps - offered && missing != {}
                 case Err(OverBudget(c, n, b)) =>
                   d.caps <= ceiling && d.deps <= offered && n == Get(d.uses, c) && b == Get(budget, c) && n > b
               }
    // Success means that every concrete path fits, class by class and name by name.
    ensures r.Ok? ==>
              && (forall t, k :: IsPath(plan, t) ==> Uses(t, lookup, k) <= Get(budget, k))
              && (forall t, i :: IsPath(plan, t) && 0 <= i < |t| ==>
                   lookup(t[i]).caps <= ceiling && lookup(t[i]).deps <= offered)
  {
    var d := DemandSum(plan, lookup);
    if !(d.caps <= ceiling) {
      ghost var x :| x in d.caps && x !in ceiling;
      assert x in d.caps - ceiling;
      return Err(ExceedsCeiling(d.caps - ceiling));
    }
    if !(d.deps <= offered) {
      ghost var x :| x in d.deps && x !in offered;
      assert x in d.deps - offered;
      return Err(UnmetDependency(d.deps - offered));
    }
    var over := FirstExceeding(d.uses, budget);
    if over.Some? {
      return Err(OverBudget(over.value, d.uses[over.value], Get(budget, over.value)));
    }
    EveryPathFits(plan, lookup, ceiling, offered, budget);
    return Ok(d);
  }

  lemma EveryPathFits(plan: Plan, lookup: Lookup, ceiling: set<Name>, offered: set<Name>, budget: Budget)
    requires DemandSum(plan, lookup).Leq(Requires(ceiling, offered, budget))
    ensures forall t, k :: IsPath(plan, t) ==> Uses(t, lookup, k) <= Get(budget, k)
    ensures forall t, i :: IsPath(plan, t) && 0 <= i < |t| ==>
              lookup(t[i]).caps <= ceiling && lookup(t[i]).deps <= offered
  {
    forall t, k | IsPath(plan, t)
      ensures Uses(t, lookup, k) <= Get(budget, k)
    {
      PathWithin(plan, lookup, k, t);
      SumDominates(plan, lookup, k);
    }
    forall t, i | IsPath(plan, t) && 0 <= i < |t|
      ensures lookup(t[i]).caps <= ceiling && lookup(t[i]).deps <= offered
    {
      PathNames(plan, lookup, t, i);
    }
  }
}
