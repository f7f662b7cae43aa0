// Why a plan is refused: every error of the admission walk is about something written in the plan.

module PlanRefusals {
  import opened Prelude
  import opened PlanShapes
  import opened PlanIr
  import opened PlanCheck
  import opened PlanText

  // The error names a verb nobody declared for its use, a variable that is read, an external verb
  // performed under a secret label, a list one level too deep, or an excess over a limit.
  ghost predicate Genuine(sch: Schemas, terms: seq<Term>, e: AdmitError) {
    match e
    case UnknownVerb(v) =>
      || (v !in sch.observe && exists args :: OfExpr(Observe(v, args)) in terms)
      || (v !in sch.external && exists args :: OfStmt(Effect(v, args)) in terms)
    case UnknownVar(x) => OfExpr(Var(x)) in terms
    case SinkDenied(v, l) =>
      v in sch.external && sch.external[v] && l.conf != {} && exists args :: OfStmt(Effect(v, args)) in terms
    case TooDeep(depth) => depth == MAX_DEPTH + 1
    case StepCeiling(steps) => steps > S_MAX
    case TooLarge(n) => n > MAX_NODES
  }

  lemma GenuineMore(sch: Schemas, a: seq<Term>, b: seq<Term>, e: AdmitError)
    requires Genuine(sch, a, e) && forall t :: t in a ==> t in b
    ensures Genuine(sch, b, e)
  {
  }

  lemma {:induction false} ExprRefused(sch: Schemas, env: Labels, e: Expr)
    ensures var r := ExprLabel(sch, env, e); r.Err? ==> Genuine(sch, ExprTerms(e), r.error)
    decreases e, 0
  {
    assert ExprTerms(e)[0] == OfExpr(e);
    match e {
      case Observe(v, args) =>
        if v in sch.observe {
          ArgsRefused(sch, env, args, sch.observe[v]);
        }
      case Pure(_, args) => ArgsRefused(sch, env, args, PUBLIC);
      case Index(base, _) => ExprRefused(sch, env, base);
      case Const(_) =>
      case Var(_) =>
    }
    Inside(sch, env, e);
  }

  // The error of a part is about a part of the whole.
  lemma Inside(sch: Schemas, env: Labels, e: Expr)
    ensures forall err :: Genuine(sch, ExprTerms(e)[1..], err) ==> Genuine(sch, ExprTerms(e), err)
  {
    forall err | Genuine(sch, ExprTerms(e)[1..], err)
      ensures Genuine(sch, ExprTerms(e), err)
    {
      GenuineMore(sch, ExprTerms(e)[1..], ExprTerms(e), err);
    }
  }

  lemma {:induction false} ArgsRefused(sch: Schemas, env: Labels, args: seq<Expr>, base: Label)
    ensures var r := ArgsLabel(sch, env, args, base); r.Err? ==> Genuine(sch, ArgsTerms(args), r.error)
    decreases args, 0
  {
    var r := ArgsLabel(sch, env, args, base);
    if args != [] && r.Err? {
      var n := |args| - 1;
      ArgsRefused(sch, env, args[..n], base);
      ExprRefused(sch, env, args[n]);
      GenuineMore(sch, if ArgsLabel(sch, env, args[..n], base).Err? then ArgsTerms(args[..n]) else ExprTerms(args[n]),
        ArgsTerms(args), r.error);
    }
  }

  lemma {:induction false} GuardRefused(sch: Schemas, env: Labels, g: Guard)
    ensures var r := GuardLabel(sch, env, g); r.Err? ==> Genuine(sch, GuardTerms(g), r.error)
    decreases g
  {
    var r := GuardLabel(sch, env, g);
    match g {
      case Exists(e) => ExprRefused(sch, env, e);
      case Matches(e, _) => ExprRefused(sch, env, e);
      case Cmp(a, _, b) =>
        ExprRefused(sch, env, a);
        ExprRefused(sch, env, b);
        if r.Err? {
          GenuineMore(sch, if ExprLabel(sch, env, a).Err? then ExprTerms(a) else ExprTerms(b), GuardTerms(g), r.error);
        }
      case And(a, b) => PairRefused(sch, env, g, a, b);
      case Or(a, b) => PairRefused(sch, env, g, a, b);
      case Not(h) => GuardRefused(sch, env, h);
    }
  }

  lemma {:induction false} PairRefused(sch: Schemas, env: Labels, g: Guard, a: Guard, b: Guard)
    requires g == And(a, b) || g == Or(a, b)
    ensures var r := GuardLabel(sch, env, g); r.Err? ==> Genuine(sch, GuardTerms(g), r.error)
    decreases g, 0
  {
    GuardRefused(sch, env, a);
    GuardRefused(sch, env, b);
    var r := GuardLabel(sch, env, g);
    if r.Err? {
      GenuineMore(sch, if GuardLabel(sch, env, a).Err? then GuardTerms(a) else GuardTerms(b), GuardTerms(g), r.error);
    }
  }

  lemma {:induction false} ListRefused(sch: Schemas, w: WalkState, stmts: seq<Stmt>, pc: Label, mult: nat, depth: nat)
    requires depth <= MAX_DEPTH
    ensures var r := WalkList(sch, w, stmts, pc, mult, depth); r.Err? ==> Genuine(sch, Terms(stmts), r.error)
    decreases stmts, 0
  {
    hide WalkStmt, StmtTerms, Genuine;
    var r := WalkList(sch, w, stmts, pc, mult, depth);
    if stmts != [] && r.Err? {
      var n := |stmts| - 1;
      ListRefused(sch, w, stmts[..n], pc, mult, depth);
      var front := WalkList(sch, w, stmts[..n], pc, mult, depth);
      if front.Ok? {
        StmtRefused(sch, front.value, stmts[n], pc, mult, depth);
      }
      GenuineMore(sch, if front.Err? then Terms(stmts[..n]) else StmtTerms(stmts[n]), Terms(stmts), r.error);
    }
  }

  lemma {:induction false} BlockRefused(sch: Schemas, w: WalkState, stmts: seq<Stmt>, pc: Label, mult: nat, depth: nat)
    requires depth <= MAX_DEPTH + 1
    ensures var r := WalkBlock(sch, w, stmts, pc, mult, depth); r.Err? ==> Genuine(sch, Terms(stmts), r.error)
    decreases stmts, 1
  {
    hide WalkList, Terms;
    if depth <= MAX_DEPTH {
      ListRefused(sch, w, stmts, pc, mult, depth);
    }
  }

  lemma {:induction false} StmtRefused(sch: Schemas, w: WalkState, s: Stmt, pc: Label, mult: nat, depth: nat)
    requires depth <= MAX_DEPTH
    ensures var r := WalkStmt(sch, w, s, pc, mult, depth); r.Err? ==> Genuine(sch, StmtTerms(s), r.error)
    decreases s, 1
  {
    hide WalkBlock, ExprLabel, ArgsLabel, GuardLabel, ExprTerms, ArgsTerms, GuardTerms, Terms;
    var r := WalkStmt(sch, w, s, pc, mult, depth);
    var env := w.env;
    assert StmtTerms(s)[0] == OfStmt(s);
    if r.Err? && w.steps + mult <= S_MAX {
      match s {
        case Let(_, e) =>
          ExprRefused(sch, env, e);
          GenuineMore(sch, ExprTerms(e), StmtTerms(s), r.error);
        case Effect(v, args) =>
          ArgsRefused(sch, env, args, pc);
          assert OfStmt(Effect(v, args)) in StmtTerms(s);
          if v in sch.external && ArgsLabel(sch, env, args, pc).Err? {
            GenuineMore(sch, ArgsTerms(args), StmtTerms(s), r.error);
          }
        case If(_, _, _) => IfRefused(sch, w, s, pc, mult, depth);
        case Foreach(_, _, _, _, _) => LoopRefused(sch, w, s, pc, mult, depth);
      }
    }
  }

  lemma {:induction false} IfRefused(sch: Schemas, w: WalkState, s: Stmt, pc: Label, mult: nat, depth: nat)
    requires s.If? && depth <= MAX_DEPTH && WalkStmt(sch, w, s, pc, mult, depth).Err?
    ensures Genuine(sch, StmtTerms(s), WalkStmt(sch, w, s, pc, mult, depth).error)
    decreases s, 0
  {
    hide WalkBlock, GuardLabel, GuardTerms, Terms, WalkStmt;
    var r := WalkStmt(sch, w, s, pc, mult, depth);
    var w1 := w.(nodes := w.nodes + 1, steps := w.steps + mult);
    var g := GuardLabel(sch, w1.env, s.guard);
    var w2 := w1.(nodes := w1.nodes + GuardNodes(s.guard));
    IfUnfolds(sch, w, s, pc, mult, depth);
    GuardRefused(sch, w1.env, s.guard);
    if w1.steps <= S_MAX {
      if g.Err? {
        GenuineMore(sch, GuardTerms(s.guard), StmtTerms(s), r.error);
      } else {
        var pc2 := pc.Join(g.value);
        BlockRefused(sch, w2, s.thenArm, pc2, mult, depth + 1);
        var first := WalkBlock(sch, w2, s.thenArm, pc2, mult, depth + 1);
        if first.Ok? {
          BlockRefused(sch, first.value, s.elseArm, pc2, mult, depth + 1);
        }
        GenuineMore(sch, if first.Err? then Terms(s.thenArm) else Terms(s.elseArm), StmtTerms(s), r.error);
      }
    }
  }

  lemma {:induction false} LoopRefused(sch: Schemas, w: WalkState, s: Stmt, pc: Label, mult: nat, depth: nat)
    requires s.Foreach? && depth <= MAX_DEPTH && WalkStmt(sch, w, s, pc, mult, depth).Err?
    ensures Genuine(sch, StmtTerms(s), WalkStmt(sch, w, s, pc, mult, depth).error)
    decreases s, 0
  {
    hide WalkBlock, ExprLabel, ExprTerms, Terms, WalkStmt;
    var r := WalkStmt(sch, w, s, pc, mult, depth);
    var w1 := w.(nodes := w.nodes + 1, steps := w.steps + mult);
    var l := ExprLabel(sch, w1.env, s.list);
    LoopUnfolds(sch, w, s, pc, mult, depth);
    ExprRefused(sch, w1.env, s.list);
    if w1.steps <= S_MAX {
      if l.Err? {
        GenuineMore(sch, ExprTerms(s.list), StmtTerms(s), r.error);
      } else {
        var w2 := w1.(env := w1.env[s.item := l.value], nodes := w1.nodes + ExprNodes(s.list));
        BlockRefused(sch, w2, s.body, pc.Join(l.value), mult * s.bound, depth + 1);
        GenuineMore(sch, Terms(s.body), StmtTerms(s), r.error);
      }
    }
  }
}
