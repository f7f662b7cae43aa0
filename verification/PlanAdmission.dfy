// The admission walk as it runs: one record updated in place, in machine arithmetic.

module PlanAdmission {
  import opened Prelude
  import opened PlanShapes
  import opened PlanIr
  import opened PlanCheck
  import opened PlanAnnotations
  import T = PlanText
  import F = PlanFlow
  import W = PlanRefusals
  import C = Coeffect

  function SatAdd(a: U64, b: U64): U64 {
    if a + b <= U64_MAX then a + b else U64_MAX
  }

  function SatMul(a: U64, b: U64): U64 {
    if a * b <= U64_MAX then a * b else U64_MAX
  }

  // No multiplier exceeds one accepted step total scaled by one u32 bound.
  const MAX_MULT: nat := S_MAX * U32_MAX

  lemma MultiplierBounded(mult: nat, bound: U32)
    requires mult <= S_MAX
    ensures mult * bound <= MAX_MULT && SatMul(mult, bound) == mult * bound
  {
    C.ScaleMonotone(mult, S_MAX, bound, U32_MAX);
  }

  datatype Admission = Admission(budget: Amounts, effects: seq<EffectAnn>, worstCaseSteps: nat, nodeCount: nat)

  class Walk {
    const schemas: Schemas
    var env: Labels
    var budget: map<VerbId, U64>
    var effects: seq<EffectAnn>
    var worstCaseSteps: U64
    var nodeCount: nat

    ghost function View(): WalkState
      reads this
    {
      WalkState(env, budget, effects, worstCaseSteps, nodeCount)
    }

    // Every budget is covered by the step total, less what this statement just added.
    ghost predicate Bounded(slack: nat)
      reads this
    {
      && worstCaseSteps <= S_MAX
      && forall v {:trigger budget[v]} :: v in budget ==> budget[v] + slack <= worstCaseSteps
    }

    constructor (schemas: Schemas)
      ensures this.schemas == schemas && View() == WalkState(map[], map[], [], 0, 0) && Bounded(0)
    {
      this.schemas := schemas;
      env := map[];
      budget := map[];
      effects := [];
      worstCaseSteps := 0;
      nodeCount := 0;
    }

    method LabelExpr(e: Expr) returns (r: Result<Label, AdmitError>)
      modifies this`nodeCount
      ensures r == ExprLabel(schemas, env, e)
      ensures r.Ok? ==> nodeCount == old(nodeCount) + ExprNodes(e)
      decreases e, 0
    {
      nodeCount := nodeCount + 1;
      match e {
        case Observe(verb, args) =>
          if verb !in schemas.observe {
            return Err(UnknownVerb(verb));
          }
          r := LabelArgs(args, schemas.observe[verb]);
        case Pure(_, args) =>
          r := LabelArgs(args, PUBLIC);
        case Const(_) =>
          r := Ok(PUBLIC);
        case Var(name) =>
          if name !in env {
            return Err(UnknownVar(name));
          }
          r := Ok(env[name]);
        case Index(base, _) =>
          r := LabelExpr(base);
      }
    }

    method LabelArgs(args: seq<Expr>, base: Label) returns (r: Result<Label, AdmitError>)
      modifies this`nodeCount
      ensures r == ArgsLabel(schemas, env, args, base)
      ensures r.Ok? ==> nodeCount == old(nodeCount) + ArgsNodes(args)
      decreases args, 0
    {
      var l := base;
      for i := 0 to |args|
        invariant ArgsLabel(schemas, env, args[..i], base) == Ok(l)
        invariant nodeCount == old(nodeCount) + ArgsNodes(args[..i])
      {
        assert args[..i + 1][..i] == args[..i];
        var m := LabelExpr(args[i]);
        if m.Err? {
          ArgsStop(schemas, env, args, i + 1, base);
          return m;
        }
        l := l.Join(m.value);
      }
      assert args[..|args|] == args;
      return Ok(l);
    }

    static lemma {:induction false} ArgsStop(sch: Schemas, env: Labels, args: seq<Expr>, n: nat, base: Label)
      requires n <= |args| && ArgsLabel(sch, env, args[..n], base).Err?
      ensures ArgsLabel(sch, env, args, base) == ArgsLabel(sch, env, args[..n], base)
      decreases |args| - n
    {
      if n == |args| {
        assert args[..n] == args;
      } else {
        assert args[..n + 1][..n] == args[..n];
        ArgsStop(sch, env, args, n + 1, base);
      }
    }

    method LabelGuard(g: Guard) returns (r: Result<Label, AdmitError>)
      modifies this`nodeCount
      ensures r == GuardLabel(schemas, env, g)
      ensures r.Ok? ==> nodeCount == old(nodeCount) + GuardNodes(g)
      decreases g, 1
    {
      match g {
        case Exists(e) => r := LabelExpr(e);
        case Matches(e, _) => r := LabelExpr(e);
        case Cmp(a, _, b) =>
          var x := LabelExpr(a);
          if x.Err? {
            return x;
          }
          var y := LabelExpr(b);
          if y.Err? {
            return y;
          }
          r := Ok(x.value.Join(y.value));
        case And(_, _) => r := LabelPair(g);
        case Or(_, _) => r := LabelPair(g);
        case Not(h) => r := LabelGuard(h);
      }
    }

    method LabelPair(g: Guard) returns (r: Result<Label, AdmitError>)
      requires g.And? || g.Or?
      modifies this`nodeCount
      ensures r == GuardLabel(schemas, env, g)
      ensures r.Ok? ==> nodeCount == old(nodeCount) + GuardNodes(g)
      decreases g, 0
    {
      var x := LabelGuard(g.l);
      if x.Err? {
        return x;
      }
      var y := LabelGuard(g.r);
      if y.Err? {
        return y;
      }
      r := Ok(x.value.Join(y.value));
    }

    // ----- statements -----

    ghost predicate Done(spec: Walked, r: Option<AdmitError>)
      reads this
    {
      match spec
      case Ok(w) => r == None && View() == w && Bounded(0)
      case Err(e) => r == Some(e)
    }

    method WalkEffect(verb: VerbId, args: seq<Expr>, pc: Label, mult: U64) returns (r: Option<AdmitError>)
      requires Bounded(mult) && mult <= worstCaseSteps
      modifies this
      ensures Done(PlanCheck.WalkEffect(schemas, old(View()), verb, args, pc, mult), r)
    {
      if verb !in schemas.external {
        return Some(UnknownVerb(verb));
      }
      var eff := LabelArgs(args, pc);
      if eff.Err? {
        return Some(eff.error);
      }
      if schemas.external[verb] && eff.value.conf != {} {
        return Some(SinkDenied(verb, eff.value));
      }
      var before := if verb in budget then budget[verb] else 0;
      // Plain addition: the entry stays below the step total.
      budget := budget[verb := before + mult];
      effects := effects + [EffectAnn(verb, eff.value, mult)];
      return None;
    }

    method WalkStmt(s: Stmt, pc: Label, mult: U64, depth: nat) returns (r: Option<AdmitError>)
      requires Bounded(0) && mult <= MAX_MULT
      modifies this
      ensures Done(PlanCheck.WalkStmt(schemas, old(View()), s, pc, mult, depth), r)
      decreases s, 0
    {
      hide PlanCheck.WalkList, PlanCheck.WalkEffect;
      nodeCount := nodeCount + 1;
      worstCaseSteps := SatAdd(worstCaseSteps, mult);
      if worstCaseSteps > S_MAX {
        return Some(StepCeiling(worstCaseSteps));
      }
      match s {
        case Let(x, e) =>
          var l := LabelExpr(e);
          if l.Err? {
            return Some(l.error);
          }
          env := env[x := l.value];
          return None;
        case Effect(verb, args) =>
          r := WalkEffect(verb, args, pc, mult);
        case If(g, a, b) =>
          var l := LabelGuard(g);
          if l.Err? {
            return Some(l.error);
          }
          var pc2 := pc.Join(l.value);
          r := WalkStmts(a, pc2, mult, depth + 1);
          if r.None? {
            r := WalkStmts(b, pc2, mult, depth + 1);
          }
        case Foreach(x, list, bound, _, body) =>
          var l := LabelExpr(list);
          if l.Err? {
            return Some(l.error);
          }
          env := env[x := l.value];
          MultiplierBounded(mult, bound);
          r := WalkStmts(body, pc.Join(l.value), SatMul(mult, bound), depth + 1);
      }
    }

    // The fields after the walk are those of the exact walk: no addition or multiplication
    // saturates, whether the plan is accepted or not.
    method WalkStmts(stmts: seq<Stmt>, pc: Label, mult: U64, depth: nat) returns (r: Option<AdmitError>)
      requires Bounded(0) && mult <= MAX_MULT
      modifies this
      ensures Done(WalkBlock(schemas, old(View()), stmts, pc, mult, depth), r)
      decreases stmts, 1
    {
      hide PlanCheck.WalkStmt;
      if depth > MAX_DEPTH {
        return Some(TooDeep(depth));
      }
      ghost var start := View();
      for i := 0 to |stmts|
        invariant Bounded(0)
        invariant WalkList(schemas, start, stmts[..i], pc, mult, depth) == Ok(View())
      {
        assert stmts[..i + 1][..i] == stmts[..i];
        r := WalkStmt(stmts[i], pc, mult, depth);
        if r.Some? {
          WalkStop(schemas, start, stmts, i + 1, pc, mult, depth);
          return r;
        }
      }
      assert stmts[..|stmts|] == stmts;
      return None;
    }

    static lemma {:induction false} WalkStop(sch: Schemas, w: WalkState, stmts: seq<Stmt>, n: nat, pc: Label, mult: nat,
                                             depth: nat)
      requires n <= |stmts| && WalkList(sch, w, stmts[..n], pc, mult, depth).Err?
      ensures WalkList(sch, w, stmts, pc, mult, depth) == WalkList(sch, w, stmts[..n], pc, mult, depth)
      decreases |stmts| - n
    {
      hide PlanCheck.WalkStmt;
      if n == |stmts| {
        assert stmts[..n] == stmts;
      } else {
        assert stmts[..n + 1][..n] == stmts[..n];
        WalkStop(sch, w, stmts, n + 1, pc, mult, depth);
      }
    }
  }

  const FRESH: WalkState := WalkState(map[], map[], [], 0, 0)

  // A plan is admitted exactly when its depth, its steps, its labels and its size pass.
  predicate Admissible(stmts: seq<Stmt>, sch: Schemas) {
    && DepthOk(stmts, 1)
    && Steps(stmts) <= S_MAX
    && LabelPass(sch, map[], stmts, PUBLIC).Some?
    && Nodes(stmts) <= MAX_NODES
  }

  // In terms of the text: at most fifteen branches and loops around a list, at most 100000 statements
  // when unrolled, at most 4096 terms, and every event of the text in order: all that is read is
  // known, and no secret flows to an external effect.
  lemma AdmissibleExact(stmts: seq<Stmt>, sch: Schemas)
    ensures Admissible(stmts, sch) <==>
            && T.Nesting(stmts) <= 15 && |T.Unrolled(stmts)| <= 100_000 && |T.Terms(stmts)| <= 4096
            && F.AllOk(sch, F.Events(stmts), 0)
  {
    hide DepthOk, LabelPass, T.Nesting, T.Unrolled, T.Terms, F.AllOk, F.Events, Steps, Nodes;
    T.DepthExact(stmts, 1);
    T.UnrolledCounts(stmts, COMPUTE);
    T.TermsCount(stmts);
    F.PassExact(sch, stmts, 1);
  }

  // A refusal is the first error of the exact walk; the size is checked last.
  method Admit(stmts: seq<Stmt>, sch: Schemas) returns (r: Result<Admission, AdmitError>)
    ensures r.Ok? <==> Admissible(stmts, sch)
    ensures r.Err? ==> var walk := WalkBlock(sch, FRESH, stmts, PUBLIC, 1, 1);
                       r.error == if walk.Err? then walk.error else TooLarge(Nodes(stmts))
    ensures r.Err? ==> W.Genuine(sch, T.Terms(stmts), r.error)
    ensures r.Ok? ==>
              && r.value.worstCaseSteps == Steps(stmts) && r.value.nodeCount == Nodes(stmts)
              && (forall v :: Amount(r.value.budget, v) == Occ(stmts, v) <= S_MAX)
              && r.value.effects == Anns(sch, map[], stmts, PUBLIC, 1)
              && F.Annotates(sch, F.Events(stmts), 0, r.value.effects)
              && (forall v :: Amount(r.value.budget, v) == T.Performs(T.Unrolled(stmts), v))
              && forall v :: Multipliers(r.value.effects, v) == Amount(r.value.budget, v)
  {
    hide WalkList, Steps, Nodes, NestedOk, LabelPass, Anns, Multipliers, F.Annotates, F.Events, T.Performs, T.Unrolled;
    hide T.Terms;
    var w := new Walk(sch);
    var error := w.WalkStmts(stmts, PUBLIC, 1, 1);
    BlockIsThreePasses(sch, FRESH, stmts, PUBLIC, 1, 1);
    W.BlockRefused(sch, FRESH, stmts, PUBLIC, 1, 1);
    if error.Some? {
      return Err(error.value);
    }
    WalkListCounts(sch, FRESH, stmts, PUBLIC, 1, 1);
    assert forall v :: Amount(w.View().budget, v) == Occ(stmts, v);
    forall v
      ensures Occ(stmts, v) <= Steps(stmts)
    {
      OccWithinSteps(stmts, v);
    }
    WalkRecords(sch, FRESH, stmts, PUBLIC, 1, 1);
    var none: Labels := map[];
    assert w.effects == Anns(sch, none, stmts, PUBLIC, 1);
    forall v
      ensures Multipliers(w.effects, v) == Occ(stmts, v)
    {
      AnnsSum(sch, none, stmts, PUBLIC, 1, v);
    }
    F.PassExact(sch, stmts, 1);
    forall v
      ensures T.Performs(T.Unrolled(stmts), v) == Occ(stmts, v)
    {
      T.UnrolledCounts(stmts, v);
    }
    if w.nodeCount > MAX_NODES {
      return Err(TooLarge(w.nodeCount));
    }
    return Ok(Admission(w.budget, w.effects, w.worstCaseSteps, w.nodeCount));
  }

  // The admitted budget of every verb is the law-side demand of the projected plan.
  lemma BudgetIsDemand(stmts: seq<Stmt>, budget: Amounts, lookup: C.Lookup, v: VerbId, k: Name)
    requires forall u :: Amount(budget, u) == Occ(stmts, u)
    requires ClassOf(lookup, v, k)
    ensures Amount(budget, v) == C.Get(C.DemandSum(Shape(stmts), lookup).uses, k)
    ensures forall t :: IsPath(Shape(stmts), t) ==> C.Uses(t, lookup, k) <= Amount(budget, v)
  {
    OccIsDemand(stmts, lookup, v, k);
    forall t | IsPath(Shape(stmts), t)
      ensures C.Uses(t, lookup, k) <= Amount(budget, v)
    {
      C.PathWithin(Shape(stmts), lookup, k, t);
      C.SumDominates(Shape(stmts), lookup, k);
    }
  }
}
