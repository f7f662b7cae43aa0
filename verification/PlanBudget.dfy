// What the gate decides, what every call costs, and why a funded run is never refused.

module PlanBudget {
  import opened Prelude
  import opened PlanShapes
  import opened PlanIr
  import opened PlanCheck
  import opened PlanSemantics
  import opened PlanFrames
  import C = Coeffect

  // ----- the gate -----

  // A live capability that would exercise cleanly.
  predicate Usable(cfg: Config, n: nat, grants: seq<Grant>, k: nat, v: VerbId) {
    && Candidate(cfg, n, grants, k, v)
    && cfg.clock(n) <= grants[k][v.handler].expires
    && (v.verb in grants[k][v.handler].left ==> grants[k][v.handler].left[v.verb] > 0)
  }

  // A live capability past its time.
  predicate Late(cfg: Config, n: nat, grants: seq<Grant>, k: nat, v: VerbId) {
    Candidate(cfg, n, grants, k, v) && cfg.clock(n) > grants[k][v.handler].expires
  }

  function Charged(grants: seq<Grant>, k: nat, v: VerbId): seq<Grant>
    requires k < |grants| && Covers(grants[k], v)
    requires v.verb in grants[k][v.handler].left ==> grants[k][v.handler].left[v.verb] > 0
  {
    if v.verb in grants[k][v.handler].left then grants[k := Spend(grants[k], v)] else grants
  }

  // Capability `k` is the first usable one from `i` on, and pays.
  ghost predicate FirstPays(cfg: Config, n: nat, grants: seq<Grant>, v: VerbId, i: nat, k: nat, after: seq<Grant>) {
    && i <= k && Usable(cfg, n, grants, k, v) && after == Charged(grants, k, v)
    && forall j: nat :: i <= j < k ==> !Usable(cfg, n, grants, j, v)
  }

  ghost predicate NoneFrom(cfg: Config, n: nat, grants: seq<Grant>, v: VerbId, i: nat) {
    forall j: nat :: i <= j ==> !Candidate(cfg, n, grants, j, v)
  }

  // Candidate `k` is the last one; its own refusal is the reason.
  ghost predicate LastRefuses(cfg: Config, n: nat, grants: seq<Grant>, v: VerbId, i: nat, k: nat, g: Gate) {
    && i <= k && Candidate(cfg, n, grants, k, v) && NoneFrom(cfg, n, grants, v, k + 1)
    && g == if Late(cfg, n, grants, k, v) then Expired else BudgetExhausted
  }

  ghost predicate Decides(cfg: Config, n: nat, grants: seq<Grant>, v: VerbId, i: nat, last: Gate, g: Gate) {
    match g
    case Open(after) => exists k: nat :: FirstPays(cfg, n, grants, v, i, k, after)
    case _ =>
      && (forall j: nat :: i <= j ==> !Usable(cfg, n, grants, j, v))
      && ((g == last && NoneFrom(cfg, n, grants, v, i)) || exists k: nat :: LastRefuses(cfg, n, grants, v, i, k, g))
  }

  lemma {:induction false} ExerciseDecides(cfg: Config, n: nat, grants: seq<Grant>, v: VerbId, i: nat, last: Gate)
    requires i <= |grants| && !last.Open?
    ensures Decides(cfg, n, grants, v, i, last, Exercise(cfg, n, grants, v, i, last))
    decreases |grants| - i
  {
    if i < |grants| {
      if Usable(cfg, n, grants, i, v) {
        assert Exercise(cfg, n, grants, v, i, last) == Open(Charged(grants, i, v));
        assert FirstPays(cfg, n, grants, v, i, i, Charged(grants, i, v));
      } else {
        var next := if !Candidate(cfg, n, grants, i, v) then last
                    else if Late(cfg, n, grants, i, v) then Expired else BudgetExhausted;
        assert Exercise(cfg, n, grants, v, i, last) == Exercise(cfg, n, grants, v, i + 1, next);
        ExerciseDecides(cfg, n, grants, v, i + 1, next);
        DecidesEarlier(cfg, n, grants, v, i, last, next, Exercise(cfg, n, grants, v, i + 1, next));
      }
    }
  }

  lemma DecidesEarlier(cfg: Config, n: nat, grants: seq<Grant>, v: VerbId, i: nat, last: Gate, next: Gate, g: Gate)
    requires i < |grants| && !last.Open? && !Usable(cfg, n, grants, i, v)
    requires next == if !Candidate(cfg, n, grants, i, v) then last
                     else if Late(cfg, n, grants, i, v) then Expired else BudgetExhausted
    requires Decides(cfg, n, grants, v, i + 1, next, g)
    ensures Decides(cfg, n, grants, v, i, last, g)
  {
    hide Usable, Candidate, Late;
    if g.Open? {
      var k: nat :| FirstPays(cfg, n, grants, v, i + 1, k, g.grants);
      assert FirstPays(cfg, n, grants, v, i, k, g.grants);
    } else if g == next && NoneFrom(cfg, n, grants, v, i + 1) {
      if Candidate(cfg, n, grants, i, v) {
        assert LastRefuses(cfg, n, grants, v, i, i, g);
      }
    } else {
      var k: nat :| LastRefuses(cfg, n, grants, v, i + 1, k, g);
      assert LastRefuses(cfg, n, grants, v, i, k, g);
    }
  }

  // The gate opens exactly when some capability is usable, reports a missing one exactly when
  // there is no candidate, and otherwise the last candidate gives the reason.
  lemma GateExact(cfg: Config, n: nat, grants: seq<Grant>, v: VerbId)
    ensures var g := Exercise(cfg, n, grants, v, 0, NoCapability);
            && (g.Open? <==> exists k: nat :: Usable(cfg, n, grants, k, v))
            && (g.NoCapability? <==> NoneFrom(cfg, n, grants, v, 0))
            && (g.Expired? <==> exists k: nat :: LastRefuses(cfg, n, grants, v, 0, k, Expired) && !g.Open?)
            && (g.BudgetExhausted? <==>
                 exists k: nat :: LastRefuses(cfg, n, grants, v, 0, k, BudgetExhausted) && !g.Open?)
  {
    hide Exercise, Charged, Late;
    ExerciseDecides(cfg, n, grants, v, 0, NoCapability);
    var g := Exercise(cfg, n, grants, v, 0, NoCapability);
    forall j: nat, k: nat, a, b | LastRefuses(cfg, n, grants, v, 0, j, a) && LastRefuses(cfg, n, grants, v, 0, k, b)
      ensures j == k && a == b
    {
      OneLast(cfg, n, grants, v, j, k, a, b);
    }
  }

  lemma OneLast(cfg: Config, n: nat, grants: seq<Grant>, v: VerbId, j: nat, k: nat, a: Gate, b: Gate)
    requires LastRefuses(cfg, n, grants, v, 0, j, a) && LastRefuses(cfg, n, grants, v, 0, k, b)
    ensures j == k && a == b
  {
    hide Candidate, Late;
  }

  // ----- what a grant still allows -----

  function Left(grants: seq<Grant>, k: nat, v: VerbId): nat {
    if k < |grants| && Covers(grants[k], v) && v.verb in grants[k][v.handler].left
    then grants[k][v.handler].left[v.verb] else 0
  }

  // At call `n` every capability of grant `k` is live and within its time.
  ghost predicate Lasting(cfg: Config, n: nat, grants: seq<Grant>, k: nat) {
    && k < |grants|
    && forall f :: f in grants[k] ==> cfg.alive(n, k, f) && cfg.clock(n) <= grants[k][f].expires
  }

  // The grant lasts at every call from `lo` up to, but not including, `hi`.
  ghost predicate InTime(cfg: Config, grants: seq<Grant>, k: nat, lo: nat, hi: nat) {
    k < |grants| && forall n: nat :: lo <= n < hi ==> Lasting(cfg, n, grants, k)
  }

  lemma StillInTime(cfg: Config, a: seq<Grant>, b: seq<Grant>, k: nat, lo: nat, hi: nat)
    requires InTime(cfg, a, k, lo, hi) && Held(a, b)
    ensures InTime(cfg, b, k, lo, hi)
  {
    assert SameTerms(a[k], b[k]);
    forall n: nat | lo <= n < hi
      ensures Lasting(cfg, n, b, k)
    {
      assert Lasting(cfg, n, a, k);
    }
  }

  // Covered by grant `k`, and if counted then with `need` units left.
  predicate Able(grants: seq<Grant>, k: nat, v: VerbId, need: nat) {
    && k < |grants| && Covers(grants[k], v)
    && (v.verb in grants[k][v.handler].left ==> need <= grants[k][v.handler].left[v.verb])
  }

  lemma LeftAble(grants: seq<Grant>, k: nat, v: VerbId)
    requires Left(grants, k, v) > 0
    ensures Able(grants, k, v, 1)
  {
  }

  lemma AbleUsable(cfg: Config, n: nat, grants: seq<Grant>, k: nat, v: VerbId)
    requires Lasting(cfg, n, grants, k) && Able(grants, k, v, 1)
    ensures Usable(cfg, n, grants, k, v)
  {
  }

  lemma ChargedLeft(grants: seq<Grant>, j: nat, v: VerbId, k: nat, u: VerbId)
    requires j < |grants| && Covers(grants[j], v)
    requires v.verb in grants[j][v.handler].left ==> grants[j][v.handler].left[v.verb] > 0
    ensures var left := Left(Charged(grants, j, v), k, u);
            left == if j == k && u == v && v.verb in grants[j][v.handler].left then Left(grants, k, u) - 1
              else Left(grants, k, u)
  {
  }

  // One call costs one unit of the called verb at most, and nothing of any other; while a grant
  // lasts that covers the verb, uncounted or with a unit left, the gate opens.
  lemma GatePays(cfg: Config, n: nat, grants: seq<Grant>, v: VerbId, k: nat)
    ensures var g := Exercise(cfg, n, grants, v, 0, NoCapability);
            && (g.Open? ==>
                  && Left(grants, k, v) <= Left(g.grants, k, v) + 1
                  && forall u {:trigger Left(g.grants, k, u)} :: u != v ==> Left(g.grants, k, u) == Left(grants, k, u))
            && (Lasting(cfg, n, grants, k) && Able(grants, k, v, 1) ==> g.Open?)
  {
    hide Exercise, Left, Charged, Able, Lasting;
    ExerciseDecides(cfg, n, grants, v, 0, NoCapability);
    var g := Exercise(cfg, n, grants, v, 0, NoCapability);
    if g.Open? {
      var j: nat :| FirstPays(cfg, n, grants, v, 0, j, g.grants);
      forall u
        ensures var left := Left(g.grants, k, u);
                left == Left(grants, k, u) || (u == v && left == Left(grants, k, u) - 1)
      {
        ChargedLeft(grants, j, v, k, u);
      }
    } else if Lasting(cfg, n, grants, k) && Able(grants, k, v, 1) {
      AbleUsable(cfg, n, grants, k, v);
    }
  }

  // ----- how often each verb is read and performed -----

  function ExprReads(e: Expr, v: VerbId): nat
    decreases e, 0
  {
    match e
    case Observe(verb, args) => (if verb == v then 1 else 0) + ArgsReads(args, v)
    case Pure(_, args) => (if COMPUTE == v then 1 else 0) + ArgsReads(args, v)
    case Index(base, _) => ExprReads(base, v)
    case Const(_) => 0
    case Var(_) => 0
  }

  function ArgsReads(args: seq<Expr>, v: VerbId): nat
    decreases args, 0
  {
    if args == [] then 0 else ArgsReads(args[..|args| - 1], v) + ExprReads(args[|args| - 1], v)
  }

  function GuardReads(g: Guard, v: VerbId): nat {
    match g
    case Exists(e) => ExprReads(e, v)
    case Matches(e, _) => ExprReads(e, v)
    case Cmp(a, _, b) => ExprReads(a, v) + ExprReads(b, v)
    case And(l, r) => GuardReads(l, v) + GuardReads(r, v)
    case Or(l, r) => GuardReads(l, v) + GuardReads(r, v)
    case Not(h) => GuardReads(h, v)
  }

  // Reads of one verb, effect arguments and guards included, scaled by the enclosing bounds.
  function ReadOcc(stmts: seq<Stmt>, v: VerbId): nat
    decreases stmts, 0
  {
    if stmts == [] then 0 else ReadOcc(stmts[..|stmts| - 1], v) + StmtReadOcc(stmts[|stmts| - 1], v)
  }

  function StmtReadOcc(s: Stmt, v: VerbId): nat
    decreases s, 0
  {
    match s
    case Let(_, e) => ExprReads(e, v)
    case Effect(_, args) => ArgsReads(args, v)
    case If(g, a, b) => GuardReads(g, v) + ReadOcc(a, v) + ReadOcc(b, v)
    case Foreach(_, list, bound, _, body) => ExprReads(list, v) + bound * ReadOcc(body, v)
  }

  function EffectVerbs(stmts: seq<Stmt>): set<VerbId>
    decreases stmts, 0
  {
    if stmts == [] then {} else EffectVerbs(stmts[..|stmts| - 1]) + StmtEffectVerbs(stmts[|stmts| - 1])
  }

  function StmtEffectVerbs(s: Stmt): set<VerbId>
    decreases s, 0
  {
    match s
    case Let(_, _) => {}
    case Effect(verb, _) => {verb}
    case If(_, a, b) => EffectVerbs(a) + EffectVerbs(b)
    case Foreach(_, _, _, _, body) => EffectVerbs(body)
  }

  // ----- costs -----

  type Need = VerbId -> nat

  ghost predicate Costs(k: nat, a: RunState, b: RunState, need: Need) {
    forall v {:trigger Left(b.grants, k, v)} :: Left(a.grants, k, v) <= Left(b.grants, k, v) + need(v)
  }

  lemma CostsAdd(k: nat, a: RunState, b: RunState, c: RunState, first: Need, second: Need, both: Need)
    requires Costs(k, a, b, first) && Costs(k, b, c, second)
    requires forall v :: first(v) + second(v) <= both(v)
    ensures Costs(k, a, c, both)
  {
    forall v
      ensures Left(a.grants, k, v) <= Left(c.grants, k, v) + both(v)
    {
      assert Left(a.grants, k, v) <= Left(b.grants, k, v) + first(v);
      assert Left(b.grants, k, v) <= Left(c.grants, k, v) + second(v);
    }
  }

  // Less need, and states with the same grants.
  lemma CostsLess(k: nat, a: RunState, b: RunState, c: RunState, less: Need, more: Need)
    requires Costs(k, a, b, less) && c.grants == b.grants && forall v :: less(v) <= more(v)
    ensures Costs(k, a, c, more)
  {
    forall v
      ensures Left(a.grants, k, v) <= Left(c.grants, k, v) + more(v)
    {
      assert Left(a.grants, k, v) <= Left(b.grants, k, v) + less(v);
    }
  }

  function Nothing(): Need {
    v => 0
  }

  function Once(u: VerbId): Need {
    v => if v == u then 1 else 0
  }

  function ExprNeed(e: Expr): Need {
    v => ExprReads(e, v)
  }

  function ArgsNeed(args: seq<Expr>): Need {
    v => ArgsReads(args, v)
  }

  function GuardNeed(g: Guard): Need {
    v => GuardReads(g, v)
  }

  // Effects and reads together.
  function Needs(stmts: seq<Stmt>): Need {
    v => Occ(stmts, v) + ReadOcc(stmts, v)
  }

  function StmtNeeds(s: Stmt): Need {
    v => StmtOcc(s, v) + StmtReadOcc(s, v)
  }

  function RoundNeeds(n: nat, body: seq<Stmt>): Need {
    v => n * (Occ(body, v) + ReadOcc(body, v))
  }

  lemma InvokeCosts(cfg: Config, st: RunState, v: VerbId, k: nat)
    ensures Costs(k, st, InvokeState(cfg, st, v), Once(v))
  {
    hide Left, Exercise, Lasting, Able;
    GatePays(cfg, st.calls, st.grants, v, k);
  }

  lemma {:induction false} EvalCosts(cfg: Config, st: RunState, e: Expr, k: nat)
    ensures Costs(k, st, Eval(cfg, st, e).st, ExprNeed(e))
    decreases e, 0
  {
    hide Gated, Left, Costs, InvokeState;
    CostsNothing(k, st, st, ExprNeed(e));
    match e {
      case Observe(verb, args) =>
        if verb in cfg.schemas.observe {
          var a := EvalArgs(cfg, st, args, cfg.schemas.observe[verb]).st;
          ArgsCosts(cfg, st, args, cfg.schemas.observe[verb], k);
          InvokeCosts(cfg, a, verb, k);
          CostsAdd(k, st, a, InvokeState(cfg, a, verb), ArgsNeed(args), Once(verb), ExprNeed(e));
          CostsLess(k, st, a, a, ArgsNeed(args), ExprNeed(e));
        }
      case Pure(func, args) =>
        var a := EvalArgs(cfg, st, args, PUBLIC).st;
        ArgsCosts(cfg, st, args, PUBLIC, k);
        InvokeCosts(cfg, a, COMPUTE, k);
        CostsAdd(k, st, a, InvokeState(cfg, a, COMPUTE), ArgsNeed(args), Once(COMPUTE), ExprNeed(e));
        CostsLess(k, st, a, a, ArgsNeed(args), ExprNeed(e));
      case Const(v) =>
      case Var(x) =>
      case Index(base, i) =>
        EvalCosts(cfg, st, base, k);
        CostsLess(k, st, Eval(cfg, st, base).st, Eval(cfg, st, base).st, ExprNeed(base), ExprNeed(e));
    }
  }

  lemma CostsNothing(k: nat, a: RunState, b: RunState, need: Need)
    requires a.grants == b.grants
    ensures Costs(k, a, b, need)
  {
  }

  lemma {:induction false} ArgsCosts(cfg: Config, st: RunState, args: seq<Expr>, base: Label, k: nat)
    ensures Costs(k, st, EvalArgs(cfg, st, args, base).st, ArgsNeed(args))
    decreases args, 0
  {
    hide Eval, Left, Costs;
    if args == [] {
      CostsNothing(k, st, st, ArgsNeed(args));
    } else {
      var n := |args| - 1;
      ArgsCosts(cfg, st, args[..n], base, k);
      var a := EvalArgs(cfg, st, args[..n], base);
      CostsLess(k, st, a.st, a.st, ArgsNeed(args[..n]), ArgsNeed(args));
      EvalCosts(cfg, a.st, args[n], k);
      CostsAdd(k, st, a.st, Eval(cfg, a.st, args[n]).st, ArgsNeed(args[..n]), ExprNeed(args[n]), ArgsNeed(args));
    }
  }

  lemma {:induction false} GuardCosts(cfg: Config, st: RunState, g: Guard, k: nat)
    ensures Costs(k, st, EvalGuard(cfg, st, g).st, GuardNeed(g))
    decreases g, 1
  {
    hide Eval, Left, Costs;
    match g {
      case Exists(e) =>
        EvalCosts(cfg, st, e, k);
        CostsLess(k, st, Eval(cfg, st, e).st, Eval(cfg, st, e).st, ExprNeed(e), GuardNeed(g));
      case Matches(e, _) =>
        EvalCosts(cfg, st, e, k);
        CostsLess(k, st, Eval(cfg, st, e).st, Eval(cfg, st, e).st, ExprNeed(e), GuardNeed(g));
      case Cmp(a, _, b) =>
        EvalCosts(cfg, st, a, k);
        var mid := Eval(cfg, st, a).st;
        CostsLess(k, st, mid, mid, ExprNeed(a), GuardNeed(g));
        EvalCosts(cfg, mid, b, k);
        CostsAdd(k, st, mid, Eval(cfg, mid, b).st, ExprNeed(a), ExprNeed(b), GuardNeed(g));
      case And(_, _) => PairCosts(cfg, st, g, k);
      case Or(_, _) => PairCosts(cfg, st, g, k);
      case Not(h) =>
        GuardCosts(cfg, st, h, k);
        CostsLess(k, st, EvalGuard(cfg, st, h).st, EvalGuard(cfg, st, h).st, GuardNeed(h), GuardNeed(g));
    }
  }

  lemma {:induction false} PairCosts(cfg: Config, st: RunState, g: Guard, k: nat)
    requires g.And? || g.Or?
    ensures Costs(k, st, EvalGuard(cfg, st, g).st, GuardNeed(g))
    decreases g, 0
  {
    hide Left, Costs;
    GuardCosts(cfg, st, g.l, k);
    var mid := EvalGuard(cfg, st, g.l).st;
    CostsLess(k, st, mid, mid, GuardNeed(g.l), GuardNeed(g));
    GuardCosts(cfg, mid, g.r, k);
    CostsAdd(k, st, mid, EvalGuard(cfg, mid, g.r).st, GuardNeed(g.l), GuardNeed(g.r), GuardNeed(g));
  }

  // ----- reading stops a run only with its own failures -----

  predicate ReadFailure(o: Outcome) {
    && o.FailStop? && !o.at.OutOfBudget? && !o.at.MintFailed? && !o.at.SinkRefused?
    && !o.at.BoundExceeded? && !o.at.BufferFailed?
  }

  lemma {:induction false} ExprFailure(cfg: Config, st: RunState, e: Expr)
    ensures Eval(cfg, st, e).res.Err? ==> ReadFailure(Eval(cfg, st, e).res.error)
    decreases e, 0
  {
    hide Gated;
    match e {
      case Observe(verb, args) =>
        if verb in cfg.schemas.observe {
          ArgsFailure(cfg, st, args, cfg.schemas.observe[verb]);
        }
      case Pure(func, args) => ArgsFailure(cfg, st, args, PUBLIC);
      case Const(v) =>
      case Var(x) =>
      case Index(base, i) => ExprFailure(cfg, st, base);
    }
  }

  lemma {:induction false} ArgsFailure(cfg: Config, st: RunState, args: seq<Expr>, base: Label)
    ensures EvalArgs(cfg, st, args, base).res.Err? ==> ReadFailure(EvalArgs(cfg, st, args, base).res.error)
    decreases args, 0
  {
    hide Eval;
    if args != [] {
      var n := |args| - 1;
      ArgsFailure(cfg, st, args[..n], base);
      ExprFailure(cfg, EvalArgs(cfg, st, args[..n], base).st, args[n]);
    }
  }

  lemma {:induction false} GuardFailure(cfg: Config, st: RunState, g: Guard)
    ensures EvalGuard(cfg, st, g).res.Err? ==> ReadFailure(EvalGuard(cfg, st, g).res.error)
    decreases g
  {
    hide Eval;
    match g {
      case Exists(e) => ExprFailure(cfg, st, e);
      case Matches(e, _) => ExprFailure(cfg, st, e);
      case Cmp(a, _, b) =>
        ExprFailure(cfg, st, a);
        ExprFailure(cfg, Eval(cfg, st, a).st, b);
      case And(l, r) =>
        GuardFailure(cfg, st, l);
        GuardFailure(cfg, EvalGuard(cfg, st, l).st, r);
      case Or(l, r) =>
        GuardFailure(cfg, st, l);
        GuardFailure(cfg, EvalGuard(cfg, st, l).st, r);
      case Not(h) => GuardFailure(cfg, st, h);
    }
  }
}
