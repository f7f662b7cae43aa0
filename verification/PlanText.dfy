// The size of a plan as a text: how deep it nests, how many terms it has, and how many statements
// it unrolls to.

module PlanText {
  import opened Prelude
  import opened PlanShapes
  import opened PlanIr
  import opened PlanCheck

  // ----- statements, each as often as it may run -----

  function Repeated<T>(n: nat, s: seq<T>): seq<T> {
    if n == 0 then [] else Repeated(n - 1, s) + s
  }

  function Unrolled(stmts: seq<Stmt>): seq<Stmt>
    decreases stmts, 0
  {
    if stmts == [] then [] else Unrolled(stmts[..|stmts| - 1]) + StmtUnrolled(stmts[|stmts| - 1])
  }

  function StmtUnrolled(s: Stmt): seq<Stmt>
    decreases s, 0
  {
    match s
    case Let(_, _) => [s]
    case Effect(_, _) => [s]
    case If(_, a, b) => [s] + Unrolled(a) + Unrolled(b)
    case Foreach(_, _, bound, _, body) => [s] + Repeated(bound, Unrolled(body))
  }

  function Performs(stmts: seq<Stmt>, v: VerbId): nat {
    if stmts == [] then 0
    else
      var s := stmts[|stmts| - 1];
      Performs(stmts[..|stmts| - 1], v) + (if s.Effect? && s.verb == v then 1 else 0)
  }

  lemma {:induction false} PerformsAdd(a: seq<Stmt>, b: seq<Stmt>, v: VerbId)
    ensures Performs(a + b, v) == Performs(a, v) + Performs(b, v)
    decreases |b|
  {
    if b == [] {
      assert a + b == a;
    } else {
      assert (a + b)[..|a + b| - 1] == a + b[..|b| - 1];
      PerformsAdd(a, b[..|b| - 1], v);
    }
  }

  lemma {:induction false} RepeatedCounts(n: nat, s: seq<Stmt>, v: VerbId)
    ensures |Repeated(n, s)| == n * |s| && Performs(Repeated(n, s), v) == n * Performs(s, v)
  {
    if n > 0 {
      RepeatedCounts(n - 1, s, v);
      PerformsAdd(Repeated(n - 1, s), s, v);
      assert n * |s| == (n - 1) * |s| + |s|;
      assert n * Performs(s, v) == (n - 1) * Performs(s, v) + Performs(s, v);
    }
  }

  // The static counts are those of the unrolled text: every loop to its bound, both arms of every
  // branch.
  lemma {:induction false} UnrolledCounts(stmts: seq<Stmt>, v: VerbId)
    ensures |Unrolled(stmts)| == Steps(stmts) && Performs(Unrolled(stmts), v) == Occ(stmts, v)
    decreases stmts, 0
  {
    if stmts != [] {
      var n := |stmts| - 1;
      UnrolledCounts(stmts[..n], v);
      StmtUnrolledCounts(stmts[n], v);
      PerformsAdd(Unrolled(stmts[..n]), StmtUnrolled(stmts[n]), v);
    }
  }

  lemma OnePerforms(s: Stmt, v: VerbId)
    ensures Performs([s], v) == if s.Effect? && s.verb == v then 1 else 0
  {
    assert [s][..0] == [];
  }

  lemma {:induction false} StmtUnrolledCounts(s: Stmt, v: VerbId)
    ensures |StmtUnrolled(s)| == StmtSteps(s) && Performs(StmtUnrolled(s), v) == StmtOcc(s, v)
    decreases s, 0
  {
    OnePerforms(s, v);
    match s {
      case Let(_, _) =>
      case Effect(_, _) =>
      case If(_, a, b) =>
        UnrolledCounts(a, v);
        UnrolledCounts(b, v);
        PerformsAdd([s], Unrolled(a), v);
        PerformsAdd([s] + Unrolled(a), Unrolled(b), v);
      case Foreach(_, _, bound, _, body) =>
        UnrolledCounts(body, v);
        RepeatedCounts(bound, Unrolled(body), v);
        PerformsAdd([s], Repeated(bound, Unrolled(body)), v);
    }
  }

  // ----- terms -----

  datatype Term = OfStmt(s: Stmt) | OfExpr(e: Expr)

  // The statements and expressions written in a plan, each once.
  function Terms(stmts: seq<Stmt>): seq<Term>
    decreases stmts, 0
  {
    if stmts == [] then [] else Terms(stmts[..|stmts| - 1]) + StmtTerms(stmts[|stmts| - 1])
  }

  function StmtTerms(s: Stmt): seq<Term>
    decreases s, 0
  {
    [OfStmt(s)] +
    match s
    case Let(_, e) => ExprTerms(e)
    case Effect(_, args) => ArgsTerms(args)
    case If(g, a, b) => GuardTerms(g) + Terms(a) + Terms(b)
    case Foreach(_, list, _, _, body) => ExprTerms(list) + Terms(body)
  }

  function GuardTerms(g: Guard): seq<Term> {
    match g
    case Exists(e) => ExprTerms(e)
    case Matches(e, _) => ExprTerms(e)
    case Cmp(a, _, b) => ExprTerms(a) + ExprTerms(b)
    case And(l, r) => GuardTerms(l) + GuardTerms(r)
    case Or(l, r) => GuardTerms(l) + GuardTerms(r)
    case Not(h) => GuardTerms(h)
  }

  function ExprTerms(e: Expr): seq<Term>
    decreases e, 0
  {
    [OfExpr(e)] +
    match e
    case Observe(_, args) => ArgsTerms(args)
    case Pure(_, args) => ArgsTerms(args)
    case Const(_) => []
    case Var(_) => []
    case Index(base, _) => ExprTerms(base)
  }

  function ArgsTerms(args: seq<Expr>): seq<Term>
    decreases args, 0
  {
    if args == [] then [] else ArgsTerms(args[..|args| - 1]) + ExprTerms(args[|args| - 1])
  }

  lemma {:induction false} ExprSize(e: Expr)
    ensures |ExprTerms(e)| == ExprNodes(e)
    decreases e, 0
  {
    match e {
      case Observe(_, args) => ArgsSize(args);
      case Pure(_, args) => ArgsSize(args);
      case Index(base, _) => ExprSize(base);
      case Const(_) =>
      case Var(_) =>
    }
  }

  lemma {:induction false} ArgsSize(args: seq<Expr>)
    ensures |ArgsTerms(args)| == ArgsNodes(args)
    decreases args, 0
  {
    if args != [] {
      ArgsSize(args[..|args| - 1]);
      ExprSize(args[|args| - 1]);
    }
  }

  lemma {:induction false} GuardSize(g: Guard)
    ensures |GuardTerms(g)| == GuardNodes(g)
  {
    match g {
      case Exists(e) => ExprSize(e);
      case Matches(e, _) => ExprSize(e);
      case Cmp(a, _, b) =>
        ExprSize(a);
        ExprSize(b);
      case And(l, r) =>
        GuardSize(l);
        GuardSize(r);
      case Or(l, r) =>
        GuardSize(l);
        GuardSize(r);
      case Not(h) => GuardSize(h);
    }
  }

  // The node count is the number of terms.
  lemma {:induction false} TermsCount(stmts: seq<Stmt>)
    ensures |Terms(stmts)| == Nodes(stmts)
    decreases stmts, 0
  {
    if stmts != [] {
      TermsCount(stmts[..|stmts| - 1]);
      StmtTermsCount(stmts[|stmts| - 1]);
    }
  }

  lemma {:induction false} StmtTermsCount(s: Stmt)
    ensures |StmtTerms(s)| == StmtNodes(s)
    decreases s, 0
  {
    match s {
      case Let(_, e) => ExprSize(e);
      case Effect(_, args) => ArgsSize(args);
      case If(g, a, b) =>
        GuardSize(g);
        TermsCount(a);
        TermsCount(b);
      case Foreach(_, list, _, _, body) =>
        ExprSize(list);
        TermsCount(body);
    }
  }

  // ----- nesting -----

  function Max(a: nat, b: nat): nat {
    if a < b then b else a
  }

  // Branches and loops around the innermost list.
  function Nesting(stmts: seq<Stmt>): nat
    decreases stmts, 0
  {
    if stmts == [] then 0 else Max(Nesting(stmts[..|stmts| - 1]), StmtNesting(stmts[|stmts| - 1]))
  }

  function StmtNesting(s: Stmt): nat
    decreases s, 0
  {
    match s
    case Let(_, _) => 0
    case Effect(_, _) => 0
    case If(_, a, b) => 1 + Max(Nesting(a), Nesting(b))
    case Foreach(_, _, _, _, body) => 1 + Nesting(body)
  }

  lemma {:induction false} DepthExact(stmts: seq<Stmt>, depth: nat)
    ensures DepthOk(stmts, depth) <==> depth + Nesting(stmts) <= MAX_DEPTH
    ensures NestedOk(stmts, depth) <==> Nesting(stmts) == 0 || depth + Nesting(stmts) <= MAX_DEPTH
    decreases stmts, 0
  {
    if stmts != [] {
      DepthExact(stmts[..|stmts| - 1], depth);
      StmtDepthExact(stmts[|stmts| - 1], depth);
    }
  }

  lemma {:induction false} StmtDepthExact(s: Stmt, depth: nat)
    ensures StmtDepthOk(s, depth) <==> StmtNesting(s) == 0 || depth + StmtNesting(s) <= MAX_DEPTH
    decreases s, 0
  {
    match s {
      case Let(_, _) =>
      case Effect(_, _) =>
      case If(_, a, b) =>
        DepthExact(a, depth + 1);
        DepthExact(b, depth + 1);
      case Foreach(_, _, _, _, body) => DepthExact(body, depth + 1);
    }
  }
}
