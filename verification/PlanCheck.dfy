// Admission of plans: one walk that bounds steps, derives labels and sums budgets.

module PlanCheck {
  import opened Prelude
  import opened PlanShapes
  import opened PlanIr
  import C = Coeffect

  const MAX_NODES: nat := 4096
  const MAX_DEPTH: nat := 16
  const S_MAX: nat := 100_000

  // Observe verbs with the label of their results; effect verbs with their sink kind.
  datatype Schemas = Schemas(observe: map<VerbId, Label>, external: map<VerbId, bool>)

  datatype AdmitError =
    | TooLarge(nodes: nat)
    | TooDeep(depth: nat)
    | StepCeiling(worstCase: nat)
    | UnknownVerb(verb: VerbId)
    | UnknownVar(name: Name)
    | SinkDenied(verb: VerbId, effective: Label)

  datatype EffectAnn = EffectAnn(verb: VerbId, effective: Label, multiplier: nat)

  type Labels = map<Name, Label>
  type Amounts = map<VerbId, nat>

  function Amount(m: Amounts, v: VerbId): nat {
    if v in m then m[v] else 0
  }

  // ----- static labels of expressions and guards -----

  function ExprLabel(sch: Schemas, env: Labels, e: Expr): Result<Label, AdmitError>
    decreases e, 0
  {
    match e
    case Observe(verb, args) =>
      if verb !in sch.observe then Err(UnknownVerb(verb)) else ArgsLabel(sch, env, args, sch.observe[verb])
    case Pure(_, args) => ArgsLabel(sch, env, args, PUBLIC)
    case Const(_) => Ok(PUBLIC)
    case Var(name) => if name in env then Ok(env[name]) else Err(UnknownVar(name))
    case Index(base, _) => ExprLabel(sch, env, base)
  }

  function ArgsLabel(sch: Schemas, env: Labels, args: seq<Expr>, base: Label): Result<Label, AdmitError>
    decreases args, 0
  {
    if args == [] then Ok(base)
    else
      match ArgsLabel(sch, env, args[..|args| - 1], base)
      case Err(e) => Err(e)
      case Ok(l) =>
        match ExprLabel(sch, env, args[|args| - 1])
        case Err(e) => Err(e)
        case Ok(m) => Ok(l.Join(m))
  }

  function GuardLabel(sch: Schemas, env: Labels, g: Guard): Result<Label, AdmitError> {
    match g
    case Exists(e) => ExprLabel(sch, env, e)
    case Matches(e, _) => ExprLabel(sch, env, e)
    case Cmp(a, _, b) => Both(ExprLabel(sch, env, a), ExprLabel(sch, env, b))
    case And(l, r) => Both(GuardLabel(sch, env, l), GuardLabel(sch, env, r))
    case Or(l, r) => Both(GuardLabel(sch, env, l), GuardLabel(sch, env, r))
    case Not(h) => GuardLabel(sch, env, h)
  }

  // Left to right; the first error wins.
  function Both(a: Result<Label, AdmitError>, b: Result<Label, AdmitError>): Result<Label, AdmitError> {
    match (a, b)
    case (Err(e), _) => Err(e)
    case (_, Err(e)) => Err(e)
    case (Ok(x), Ok(y)) => Ok(x.Join(y))
  }

  function ExprNodes(e: Expr): nat
    decreases e, 0
  {
    match e
    case Observe(_, args) => 1 + ArgsNodes(args)
    case Pure(_, args) => 1 + ArgsNodes(args)
    case Const(_) => 1
    case Var(_) => 1
    case Index(base, _) => 1 + ExprNodes(base)
  }

  function ArgsNodes(args: seq<Expr>): nat
    decreases args, 0
  {
    if args == [] then 0 else ArgsNodes(args[..|args| - 1]) + ExprNodes(args[|args| - 1])
  }

  function GuardNodes(g: Guard): nat {
    match g
    case Exists(e) => ExprNodes(e)
    case Matches(e, _) => ExprNodes(e)
    case Cmp(a, _, b) => ExprNodes(a) + ExprNodes(b)
    case And(l, r) => GuardNodes(l) + GuardNodes(r)
    case Or(l, r) => GuardNodes(l) + GuardNodes(r)
    case Not(h) => GuardNodes(h)
  }

  // Everything the walk counts as a node: statements and the expressions they carry.
  function Nodes(stmts: seq<Stmt>): nat
    decreases stmts, 0
  {
    if stmts == [] then 0 else Nodes(stmts[..|stmts| - 1]) + StmtNodes(stmts[|stmts| - 1])
  }

  function StmtNodes(s: Stmt): nat
    decreases s, 0
  {
    match s
    case Let(_, e) => 1 + ExprNodes(e)
    case Effect(_, args) => 1 + ArgsNodes(args)
    case If(g, a, b) => 1 + GuardNodes(g) + Nodes(a) + Nodes(b)
    case Foreach(_, list, _, _, body) => 1 + ExprNodes(list) + Nodes(body)
  }

  // ----- the walk, with exact arithmetic -----

  datatype WalkState = WalkState(env: Labels, budget: Amounts, effects: seq<EffectAnn>, steps: nat, nodes: nat)

  type Walked = Result<WalkState, AdmitError>

  function WalkBlock(sch: Schemas, w: WalkState, stmts: seq<Stmt>, pc: Label, mult: nat, depth: nat): Walked
    decreases stmts, 1
  {
    if depth > MAX_DEPTH then Err(TooDeep(depth)) else WalkList(sch, w, stmts, pc, mult, depth)
  }

  function WalkList(sch: Schemas, w: WalkState, stmts: seq<Stmt>, pc: Label, mult: nat, depth: nat): Walked
    decreases stmts, 0
  {
    if stmts == [] then Ok(w)
    else
      match WalkList(sch, w, stmts[..|stmts| - 1], pc, mult, depth)
      case Err(e) => Err(e)
      case Ok(mid) => WalkStmt(sch, mid, stmts[|stmts| - 1], pc, mult, depth)
  }

  function WalkStmt(sch: Schemas, w: WalkState, s: Stmt, pc: Label, mult: nat, depth: nat): Walked
    decreases s, 0
  {
    var w := w.(nodes := w.nodes + 1, steps := w.steps + mult);
    if w.steps > S_MAX then Err(StepCeiling(w.steps))
    else
      match s
      case Let(x, e) =>
        (match ExprLabel(sch, w.env, e)
         case Err(err) => Err(err)
         case Ok(l) => Ok(w.(env := w.env[x := l], nodes := w.nodes + ExprNodes(e))))
      case Effect(verb, args) => WalkEffect(sch, w, verb, args, pc, mult)
      case If(g, a, b) =>
        (match GuardLabel(sch, w.env, g)
         case Err(err) => Err(err)
         case Ok(l) =>
           match WalkBlock(sch, w.(nodes := w.nodes + GuardNodes(g)), a, pc.Join(l), mult, depth + 1)
           case Err(err) => Err(err)
           case Ok(mid) => WalkBlock(sch, mid, b, pc.Join(l), mult, depth + 1))
      case Foreach(x, list, bound, _, body) =>
        match ExprLabel(sch, w.env, list)
        case Err(err) => Err(err)
        case Ok(l) =>
          WalkBlock(sch, w.(env := w.env[x := l], nodes := w.nodes + ExprNodes(list)), body, pc.Join(l), mult * bound,
            depth + 1)
  }

  function WalkEffect(sch: Schemas, w: WalkState, verb: VerbId, args: seq<Expr>, pc: Label, mult: nat): Walked {
    if verb !in sch.external then Err(UnknownVerb(verb))
    else
      match ArgsLabel(sch, w.env, args, pc)
      case Err(err) => Err(err)
      case Ok(l) =>
        if sch.external[verb] && l.conf != {} then Err(SinkDenied(verb, l))
        else
          Ok(w.(budget := w.budget[verb := Amount(w.budget, verb) + mult],
                effects := w.effects + [EffectAnn(verb, l, mult)],
                nodes := w.nodes + ArgsNodes(args)))
  }

  // ----- what an accepted walk has counted -----

  lemma ScaleSum(m: nat, a: nat, b: nat)
    ensures m * (a + b) == m * a + m * b && m * a >= 0 && m * b >= 0
  {
  }

  lemma ScaleProduct(m: nat, n: nat, a: nat)
    ensures m * (n * a) == (m * n) * a
  {
  }

  ghost predicate Counted(w: WalkState, w': WalkState, mult: nat, steps: nat, stmts: seq<Stmt>) {
    && w'.steps == w.steps + mult * steps && w'.steps <= S_MAX
    && w'.nodes == w.nodes + Nodes(stmts)
    && forall v {:trigger Amount(w'.budget, v)} :: Amount(w'.budget, v) == Amount(w.budget, v) + mult * Occ(stmts, v)
  }

  // Steps and budgets are the static counts, scaled by the multiplier.
  lemma {:induction false} WalkListCounts(sch: Schemas, w: WalkState, stmts: seq<Stmt>, pc: Label, mult: nat,
                                          depth: nat)
    requires WalkList(sch, w, stmts, pc, mult, depth).Ok? && w.steps <= S_MAX
    ensures Counted(w, WalkList(sch, w, stmts, pc, mult, depth).value, mult, Steps(stmts), stmts)
    decreases stmts, 0
  {
    hide WalkStmt;
    if stmts != [] {
      var n := |stmts| - 1;
      var front, last := stmts[..n], stmts[n];
      var mid := WalkList(sch, w, front, pc, mult, depth).value;
      WalkListCounts(sch, w, front, pc, mult, depth);
      WalkStmtCounts(sch, mid, last, pc, mult, depth);
      var end := WalkList(sch, w, stmts, pc, mult, depth).value;
      ScaleSum(mult, Steps(front), StmtSteps(last));
      forall v
        ensures Amount(end.budget, v) == Amount(w.budget, v) + mult * Occ(stmts, v)
      {
        assert Amount(end.budget, v) == Amount(mid.budget, v) + mult * StmtOcc(last, v);
        ScaleSum(mult, Occ(front, v), StmtOcc(last, v));
      }
    }
  }

  ghost predicate StmtCounted(w: WalkState, end: WalkState, mult: nat, s: Stmt) {
    && end.steps == w.steps + mult * StmtSteps(s) && end.steps <= S_MAX
    && end.nodes == w.nodes + StmtNodes(s)
    && forall v {:trigger Amount(end.budget, v)} :: Amount(end.budget, v) == Amount(w.budget, v) + mult * StmtOcc(s, v)
  }

  lemma {:induction false} WalkStmtCounts(sch: Schemas, w: WalkState, s: Stmt, pc: Label, mult: nat, depth: nat)
    requires WalkStmt(sch, w, s, pc, mult, depth).Ok? && w.steps <= S_MAX
    ensures StmtCounted(w, WalkStmt(sch, w, s, pc, mult, depth).value, mult, s)
    decreases s, 1
  {
    hide WalkList, WalkBlock, ExprLabel, ArgsLabel, GuardLabel;
    match s {
      case Let(x, e) =>
      case Effect(verb, args) => EffectCounts(sch, w, s, pc, mult, depth);
      case If(g, a, b) => IfCounts(sch, w, s, pc, mult, depth);
      case Foreach(x, list, bound, _, body) => LoopCounts(sch, w, s, pc, mult, depth);
    }
  }

  lemma EffectCounts(sch: Schemas, w: WalkState, s: Stmt, pc: Label, mult: nat, depth: nat)
    requires s.Effect? && WalkStmt(sch, w, s, pc, mult, depth).Ok? && w.steps <= S_MAX
    ensures StmtCounted(w, WalkStmt(sch, w, s, pc, mult, depth).value, mult, s)
  {
    hide WalkList, WalkBlock, ExprLabel, ArgsLabel, GuardLabel;
  }

  lemma {:induction false} IfCounts(sch: Schemas, w: WalkState, s: Stmt, pc: Label, mult: nat, depth: nat)
    requires s.If? && WalkStmt(sch, w, s, pc, mult, depth).Ok? && w.steps <= S_MAX
    ensures StmtCounted(w, WalkStmt(sch, w, s, pc, mult, depth).value, mult, s)
    decreases s, 0
  {
    hide WalkList, ExprLabel, ArgsLabel, GuardLabel, Occ, Steps;
    var a, b := s.thenArm, s.elseArm;
    var w1 := w.(nodes := w.nodes + 1, steps := w.steps + mult);
    var w2 := w1.(nodes := w1.nodes + GuardNodes(s.guard));
    var pc2 := pc.Join(GuardLabel(sch, w1.env, s.guard).value);
    WalkListCounts(sch, w2, a, pc2, mult, depth + 1);
    var mid := WalkBlock(sch, w2, a, pc2, mult, depth + 1).value;
    WalkListCounts(sch, mid, b, pc2, mult, depth + 1);
    var end := WalkBlock(sch, mid, b, pc2, mult, depth + 1).value;
    assert WalkStmt(sch, w, s, pc, mult, depth) == Ok(end);
    ScaleSum(mult, Steps(a), Steps(b));
    ScaleSum(mult, 1, Steps(a) + Steps(b));
    forall v
      ensures Amount(end.budget, v) == Amount(w.budget, v) + mult * StmtOcc(s, v)
    {
      assert Amount(end.budget, v) == Amount(mid.budget, v) + mult * Occ(b, v);
      assert Amount(mid.budget, v) == Amount(w2.budget, v) + mult * Occ(a, v);
      ScaleSum(mult, Occ(a, v), Occ(b, v));
    }
  }

  lemma {:induction false} LoopCounts(sch: Schemas, w: WalkState, s: Stmt, pc: Label, mult: nat, depth: nat)
    requires s.Foreach? && WalkStmt(sch, w, s, pc, mult, depth).Ok? && w.steps <= S_MAX
    ensures StmtCounted(w, WalkStmt(sch, w, s, pc, mult, depth).value, mult, s)
    decreases s, 0
  {
    hide WalkList, ExprLabel, ArgsLabel, GuardLabel, Occ, Steps;
    var body := s.body;
    var w1 := w.(nodes := w.nodes + 1, steps := w.steps + mult);
    var l := ExprLabel(sch, w1.env, s.list).value;
    var w2 := w1.(env := w1.env[s.item := l], nodes := w1.nodes + ExprNodes(s.list));
    WalkListCounts(sch, w2, body, pc.Join(l), mult * s.bound, depth + 1);
    var end := WalkBlock(sch, w2, body, pc.Join(l), mult * s.bound, depth + 1).value;
    assert WalkStmt(sch, w, s, pc, mult, depth) == Ok(end);
    ScaleProduct(mult, s.bound, Steps(body));
    ScaleSum(mult, 1, s.bound * Steps(body));
    forall v
      ensures Amount(end.budget, v) == Amount(w.budget, v) + mult * StmtOcc(s, v)
    {
      assert Amount(end.budget, v) == Amount(w2.budget, v) + (mult * s.bound) * Occ(body, v);
      ScaleProduct(mult, s.bound, Occ(body, v));
    }
  }

  // ----- the label pass on its own -----

  // The environment after the statements; None when a verb or variable is unknown or a
  // confidential effect meets an external sink.
  function LabelPass(sch: Schemas, env: Labels, stmts: seq<Stmt>, pc: Label): Option<Labels>
    decreases stmts, 0
  {
    if stmts == [] then Some(env)
    else
      match LabelPass(sch, env, stmts[..|stmts| - 1], pc)
      case None => None
      case Some(mid) => LabelStmt(sch, mid, stmts[|stmts| - 1], pc)
  }

  function LabelStmt(sch: Schemas, env: Labels, s: Stmt, pc: Label): Option<Labels>
    decreases s, 0
  {
    match s
    case Let(x, e) =>
      (match ExprLabel(sch, env, e) case Err(_) => None case Ok(l) => Some(env[x := l]))
    case Effect(verb, args) =>
      if verb !in sch.external then None
      else
        (match ArgsLabel(sch, env, args, pc)
         case Err(_) => None
         case Ok(l) => if sch.external[verb] && l.conf != {} then None else Some(env))
    case If(g, a, b) =>
      (match GuardLabel(sch, env, g)
       case Err(_) => None
       case Ok(l) =>
         match LabelPass(sch, env, a, pc.Join(l))
         case None => None
         case Some(mid) => LabelPass(sch, mid, b, pc.Join(l)))
    case Foreach(x, list, _, _, body) =>
      match ExprLabel(sch, env, list)
      case Err(_) => None
      case Ok(l) => LabelPass(sch, env[x := l], body, pc.Join(l))
  }

  predicate DepthOk(stmts: seq<Stmt>, depth: nat)
    decreases stmts, 1
  {
    depth <= MAX_DEPTH && NestedOk(stmts, depth)
  }

  predicate NestedOk(stmts: seq<Stmt>, depth: nat)
    decreases stmts, 0
  {
    stmts == [] || (NestedOk(stmts[..|stmts| - 1], depth) && StmtDepthOk(stmts[|stmts| - 1], depth))
  }

  predicate StmtDepthOk(s: Stmt, depth: nat)
    decreases s, 0
  {
    match s
    case Let(_, _) => true
    case Effect(_, _) => true
    case If(_, a, b) => DepthOk(a, depth + 1) && DepthOk(b, depth + 1)
    case Foreach(_, _, _, _, body) => DepthOk(body, depth + 1)
  }

  // The one interleaved walk accepts exactly what the three passes accept separately.
  lemma {:induction false} WalkIsThreePasses(sch: Schemas, w: WalkState, stmts: seq<Stmt>, pc: Label, mult: nat,
                                             depth: nat)
    requires w.steps <= S_MAX
    ensures var r := WalkList(sch, w, stmts, pc, mult, depth);
            && (r.Ok? <==>
                 NestedOk(stmts, depth) && w.steps + mult * Steps(stmts) <= S_MAX &&
                 LabelPass(sch, w.env, stmts, pc).Some?)
            && (r.Ok? ==> LabelPass(sch, w.env, stmts, pc) == Some(r.value.env))
    decreases stmts, 0
  {
    hide WalkStmt, LabelStmt, StmtSteps, StmtDepthOk;
    if stmts != [] {
      var n := |stmts| - 1;
      var front, last := stmts[..n], stmts[n];
      WalkIsThreePasses(sch, w, front, pc, mult, depth);
      ScaleSum(mult, Steps(front), StmtSteps(last));
      var first := WalkList(sch, w, front, pc, mult, depth);
      if first.Ok? {
        WalkListCounts(sch, w, front, pc, mult, depth);
        StmtIsThreePasses(sch, first.value, last, pc, mult, depth);
      }
    }
  }

  lemma {:induction false} StmtIsThreePasses(sch: Schemas, w: WalkState, s: Stmt, pc: Label, mult: nat, depth: nat)
    requires w.steps <= S_MAX
    ensures var r := WalkStmt(sch, w, s, pc, mult, depth);
            && (r.Ok? <==>
                 StmtDepthOk(s, depth) && w.steps + mult * StmtSteps(s) <= S_MAX &&
                 LabelStmt(sch, w.env, s, pc).Some?)
            && (r.Ok? ==> LabelStmt(sch, w.env, s, pc) == Some(r.value.env))
    decreases s, 1
  {
    hide WalkList, WalkBlock, ExprLabel, ArgsLabel, GuardLabel, NestedOk, LabelPass, Steps;
    match s {
      case Let(x, e) =>
      case Effect(verb, args) =>
      case If(g, a, b) => IfIsThreePasses(sch, w, s, pc, mult, depth);
      case Foreach(x, list, bound, _, body) => LoopIsThreePasses(sch, w, s, pc, mult, depth);
    }
  }

  lemma IfSteps(s: Stmt, mult: nat)
    requires s.If?
    ensures mult * StmtSteps(s) == mult + mult * Steps(s.thenArm) + mult * Steps(s.elseArm)
    ensures mult * Steps(s.thenArm) >= 0 && mult * Steps(s.elseArm) >= 0
  {
    ScaleSum(mult, Steps(s.thenArm), Steps(s.elseArm));
    ScaleSum(mult, 1, Steps(s.thenArm) + Steps(s.elseArm));
  }

  lemma LoopSteps(s: Stmt, mult: nat)
    requires s.Foreach?
    ensures mult * StmtSteps(s) == mult + (mult * s.bound) * Steps(s.body)
    ensures mult * s.bound >= 0 && (mult * s.bound) * Steps(s.body) >= 0
  {
    ScaleSum(mult, s.bound, 0);
    ScaleProduct(mult, s.bound, Steps(s.body));
    ScaleSum(mult, 1, s.bound * Steps(s.body));
    ScaleSum(mult * s.bound, Steps(s.body), 0);
  }

  // What the walk does with a branch or a loop, given how its blocks went.
  lemma IfUnfolds(sch: Schemas, w: WalkState, s: Stmt, pc: Label, mult: nat, depth: nat)
    requires s.If?
    ensures var w1 := w.(nodes := w.nodes + 1, steps := w.steps + mult);
            var g := GuardLabel(sch, w1.env, s.guard);
            var w2 := w1.(nodes := w1.nodes + GuardNodes(s.guard));
            WalkStmt(sch, w, s, pc, mult, depth) ==
              if w1.steps > S_MAX then Err(StepCeiling(w1.steps))
              else if g.Err? then Err(g.error)
              else
                var first := WalkBlock(sch, w2, s.thenArm, pc.Join(g.value), mult, depth + 1);
                if first.Err? then first
                else WalkBlock(sch, first.value, s.elseArm, pc.Join(g.value), mult, depth + 1)
  {
    hide WalkBlock, GuardLabel;
  }

  lemma LoopUnfolds(sch: Schemas, w: WalkState, s: Stmt, pc: Label, mult: nat, depth: nat)
    requires s.Foreach?
    ensures var w1 := w.(nodes := w.nodes + 1, steps := w.steps + mult);
            var l := ExprLabel(sch, w1.env, s.list);
            WalkStmt(sch, w, s, pc, mult, depth) ==
              if w1.steps > S_MAX then Err(StepCeiling(w1.steps))
              else if l.Err? then Err(l.error)
              else
                WalkBlock(sch, w1.(env := w1.env[s.item := l.value], nodes := w1.nodes + ExprNodes(s.list)),
                          s.body, pc.Join(l.value), mult * s.bound, depth + 1)
  {
    hide WalkBlock, ExprLabel;
  }

  ghost predicate BlockSplit(sch: Schemas, w: WalkState, stmts: seq<Stmt>, pc: Label, mult: nat, depth: nat) {
    var r := WalkBlock(sch, w, stmts, pc, mult, depth);
    && (r.Ok? <==>
         DepthOk(stmts, depth) && w.steps + mult * Steps(stmts) <= S_MAX &&
         LabelPass(sch, w.env, stmts, pc).Some?)
    && (r.Ok? ==>
         LabelPass(sch, w.env, stmts, pc) == Some(r.value.env) &&
         r.value.steps == w.steps + mult * Steps(stmts))
  }

  lemma {:induction false} BlockIsThreePasses(sch: Schemas, w: WalkState, stmts: seq<Stmt>, pc: Label, mult: nat,
                                              depth: nat)
    requires w.steps <= S_MAX
    ensures BlockSplit(sch, w, stmts, pc, mult, depth)
    decreases stmts, 1
  {
    hide WalkList, LabelPass, NestedOk, Steps;
    WalkIsThreePasses(sch, w, stmts, pc, mult, depth);
    if WalkList(sch, w, stmts, pc, mult, depth).Ok? {
      WalkListCounts(sch, w, stmts, pc, mult, depth);
    }
  }

  lemma {:induction false} IfIsThreePasses(sch: Schemas, w: WalkState, s: Stmt, pc: Label, mult: nat, depth: nat)
    requires w.steps <= S_MAX && s.If?
    ensures var r := WalkStmt(sch, w, s, pc, mult, depth);
            && (r.Ok? <==>
                 StmtDepthOk(s, depth) && w.steps + mult * StmtSteps(s) <= S_MAX &&
                 LabelStmt(sch, w.env, s, pc).Some?)
            && (r.Ok? ==> LabelStmt(sch, w.env, s, pc) == Some(r.value.env))
    decreases s, 0
  {
    hide WalkStmt, WalkBlock, ExprLabel, ArgsLabel, GuardLabel, StmtSteps;
    var a, b := s.thenArm, s.elseArm;
    var w1 := w.(nodes := w.nodes + 1, steps := w.steps + mult);
    IfUnfolds(sch, w, s, pc, mult, depth);
    IfSteps(s, mult);
    if w1.steps <= S_MAX && GuardLabel(sch, w1.env, s.guard).Ok? {
      var pc2 := pc.Join(GuardLabel(sch, w1.env, s.guard).value);
      var w2 := w1.(nodes := w1.nodes + GuardNodes(s.guard));
      BlockIsThreePasses(sch, w2, a, pc2, mult, depth + 1);
      var first := WalkBlock(sch, w2, a, pc2, mult, depth + 1);
      if first.Ok? {
        BlockIsThreePasses(sch, first.value, b, pc2, mult, depth + 1);
      }
    }
  }

  lemma {:induction false} LoopIsThreePasses(sch: Schemas, w: WalkState, s: Stmt, pc: Label, mult: nat, depth: nat)
    requires w.steps <= S_MAX && s.Foreach?
    ensures var r := WalkStmt(sch, w, s, pc, mult, depth);
            && (r.Ok? <==>
                 StmtDepthOk(s, depth) && w.steps + mult * StmtSteps(s) <= S_MAX &&
                 LabelStmt(sch, w.env, s, pc).Some?)
            && (r.Ok? ==> LabelStmt(sch, w.env, s, pc) == Some(r.value.env))
    decreases s, 0
  {
    hide WalkStmt, WalkBlock, ExprLabel, ArgsLabel, GuardLabel, StmtSteps;
    var w1 := w.(nodes := w.nodes + 1, steps := w.steps + mult);
    LoopUnfolds(sch, w, s, pc, mult, depth);
    LoopSteps(s, mult);
    if w1.steps <= S_MAX && ExprLabel(sch, w1.env, s.list).Ok? {
      var l := ExprLabel(sch, w1.env, s.list).value;
      var w2 := w1.(env := w1.env[s.item := l], nodes := w1.nodes + ExprNodes(s.list));
      BlockIsThreePasses(sch, w2, s.body, pc.Join(l), mult * s.bound, depth + 1);
    }
  }

  // ----- lists of one and two statements -----

  lemma OneSizes(a: Stmt, depth: nat)
    ensures Steps([a]) == StmtSteps(a) && Nodes([a]) == StmtNodes(a)
    ensures NestedOk([a], depth) == StmtDepthOk(a, depth) && EscalateFree([a]) == StmtEscalateFree(a)
  {
    hide StmtSteps, StmtNodes, StmtDepthOk, StmtEscalateFree;
    assert [a][..0] == [];
  }

  lemma TwoSizes(a: Stmt, b: Stmt, depth: nat)
    ensures Steps([a, b]) == StmtSteps(a) + StmtSteps(b) && Nodes([a, b]) == StmtNodes(a) + StmtNodes(b)
    ensures NestedOk([a, b], depth) == (StmtDepthOk(a, depth) && StmtDepthOk(b, depth))
    ensures EscalateFree([a, b]) == (StmtEscalateFree(a) && StmtEscalateFree(b))
  {
    hide StmtSteps, StmtNodes, StmtDepthOk, StmtEscalateFree;
    assert [a, b][..1] == [a];
    OneSizes(a, depth);
  }
}
