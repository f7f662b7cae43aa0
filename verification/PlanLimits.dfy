// Where the guarantees of an admitted run end: one plan for each condition that fails.

module PlanLimits {
  import opened Prelude
  import opened PlanShapes
  import opened PlanIr
  import opened PlanCheck
  import opened PlanAdmission
  import opened PlanSemantics
  import opened PlanFrames
  import opened PlanRuns
  import opened PlanBudget
  import opened PlanFunds
  import opened PlanStart
  import opened PlanReach

  // ----- small plans -----

  lemma ExecOne(cfg: Config, st: RunState, a: Stmt, total: nat)
    requires 1 <= total
    ensures ExecList(cfg, st, [a], PUBLIC, total) == ExecStmt(cfg, st, a, PUBLIC, total)
  {
    hide ExecStmt;
    assert [a][..0] == [];
  }

  lemma ExecTwo(cfg: Config, st: RunState, a: Stmt, b: Stmt)
    ensures var first := ExecStmt(cfg, st, a, PUBLIC, 2);
            first.res.Ok? ==> ExecBlock(cfg, st, [a, b], PUBLIC) == ExecStmt(cfg, first.st, b, PUBLIC, 1)
  {
    hide ExecStmt;
    assert [a, b][..1] == [a] && [a][..0] == [];
    ExecOne(cfg, st, a, 2);
  }

  lemma OneCounts(a: Stmt, v: VerbId)
    ensures Occ([a], v) == StmtOcc(a, v) && ReadOcc([a], v) == StmtReadOcc(a, v) && VerbDemand([a]) == StmtDemand(a)
  {
    hide StmtOcc, StmtReadOcc, StmtDemand;
    assert [a][..0] == [];
  }

  lemma TwoCounts(a: Stmt, b: Stmt, v: VerbId)
    ensures Occ([a, b], v) == StmtOcc(a, v) + StmtOcc(b, v)
    ensures ReadOcc([a, b], v) == StmtReadOcc(a, v) + StmtReadOcc(b, v)
    ensures VerbDemand([a, b]) == StmtDemand(a) + StmtDemand(b)
  {
    hide StmtOcc, StmtReadOcc, StmtDemand;
    assert [a, b][..1] == [a];
    OneCounts(a, v);
  }

  // The static facts of a single effect.
  lemma OneEffect(sch: Schemas, v: VerbId, args: seq<Expr>, env: Labels)
    requires v in sch.external && ArgsLabel(sch, env, args, PUBLIC).Ok? && ArgsNodes(args) < MAX_NODES
    requires sch.external[v] ==> ArgsLabel(sch, env, args, PUBLIC).value.conf == {}
    ensures var stmts := [Effect(v, args)];
            && LabelPass(sch, env, stmts, PUBLIC) == Some(env) && NestedOk(stmts, 1)
            && Steps(stmts) == 1 && Nodes(stmts) == 1 + ArgsNodes(args) && EscalateFree(stmts)
            && VerbDemand(stmts) == {v} && ArgReads(stmts) == ArgsDemand(args)
            && (forall u :: Occ(stmts, u) == if u == v then 1 else 0) &&
                 (forall u :: ReadOcc(stmts, u) == ArgsReads(args, u))
  {
    var s := Effect(v, args);
    OneSizes(s, 1);
    forall u
      ensures Occ([s], u) == (if u == v then 1 else 0) && ReadOcc([s], u) == ArgsReads(args, u)
    {
      OneCounts(s, u);
    }
    OneCounts(s, v);
    assert [s][..0] == [];
    assert LabelPass(sch, env, [], PUBLIC) == Some(env);
  }

  // ----- reads in the arguments of effects -----

  // A read or a pure computation without arguments.
  predicate JustCalls(e: Expr, v: VerbId) {
    (e.Observe? && e.verb == v && e.args == []) || (e.Pure? && COMPUTE == v && e.args == [])
  }

  // A read, or a pure computation, inside an effect's arguments is not part of the demand: the
  // plan is admitted, and its run stops at that call whatever the consent.
  lemma ArgumentReadRefused(cfg: Config, v: VerbId, e: Expr, r: VerbId, c: Consent, signals: seq<Signal>)
    requires JustCalls(e, r) && r != v && v in cfg.schemas.external
    requires e.Observe? ==> r in cfg.schemas.observe && (cfg.schemas.external[v] ==> cfg.schemas.observe[r].conf == {})
    ensures var stmts := [Effect(v, [e])];
            && Admissible(stmts, cfg.schemas) && !(ArgReads(stmts) <= VerbDemand(stmts))
            && RunOf(cfg, stmts, c, signals).res == Err(FailStop(CallFailed(r)))
  {
    var args := [e];
    var none: Labels := map[];
    assert args[..0] == [];
    var base := if e.Observe? then cfg.schemas.observe[r] else PUBLIC;
    assert ArgsLabel(cfg.schemas, none, [], base) == Ok(base) && ArgsLabel(cfg.schemas, none, [], PUBLIC) == Ok(PUBLIC);
    assert ExprLabel(cfg.schemas, none, e) == Ok(base);
    assert ArgsLabel(cfg.schemas, none, args, PUBLIC) == Ok(PUBLIC.Join(base));
    assert ArgsNodes([]) == 0 && ExprNodes(e) == 1 && ArgsNodes(args) == 1;
    OneEffect(cfg.schemas, v, args, none);
    assert ArgsDemand([]) == {} && ExprDemand(e) == {r} && ArgsDemand(args) == {r};
    ArgumentStops(cfg, v, e, r, c, signals);
  }

  lemma ArgumentStops(cfg: Config, v: VerbId, e: Expr, r: VerbId, c: Consent, signals: seq<Signal>)
    requires JustCalls(e, r) && r != v && (e.Observe? ==> r in cfg.schemas.observe)
    requires VerbDemand([Effect(v, [e])]) == {v}
    ensures ExecBlock(cfg, Started([Effect(v, [e])], c, signals), [Effect(v, [e])], PUBLIC).res ==
              Err(FailStop(CallFailed(r)))
  {
    hide Mint, Exercise;
    var s := Effect(v, [e]);
    var st := Started([s], c, signals);
    ExecOne(cfg, st, s, 1);
    var st1 := st.(steps := 1);
    MintCovers({v}, c.budget, c.Expires(), r);
    GateExact(cfg, 0, st1.grants, r);
    assert [e][..0] == [];
    assert EvalArgs(cfg, st1, [], PUBLIC) == Run(st1, Ok(Args([], PUBLIC)));
    if e.Observe? {
      assert EvalArgs(cfg, st1, [], cfg.schemas.observe[r]) == Run(st1, Ok(Args([], cfg.schemas.observe[r])));
    }
    assert Eval(cfg, st1, e).res == Err(FailStop(CallFailed(r)));
    assert EvalArgs(cfg, st1, [e], PUBLIC).res == Err(FailStop(CallFailed(r)));
  }

  // ----- a verb that is read and performed -----

  function ReadThenAct(v: VerbId): seq<Stmt> {
    [Let("x", Observe(v, [])), Effect(v, [])]
  }

  lemma ReadThenActFacts(sch: Schemas, v: VerbId)
    requires v in sch.observe && v in sch.external
    ensures var stmts := ReadThenAct(v);
            && Admissible(stmts, sch) && EscalateFree(stmts)
            && Occ(stmts, v) == 1 && ReadOcc(stmts, v) == 1 && VerbDemand(stmts) == {v}
            && forall u :: u != v ==> Occ(stmts, u) == 0
  {
    var read, act := Let("x", Observe(v, [])), Effect(v, []);
    assert ArgsDemand([]) == {} && ArgsNodes([]) == 0 && ArgsReads([], v) == 0;
    TwoSizes(read, act, 1);
    TwoCounts(read, act, v);
    ReadThenActLabels(sch, v);
    forall u | u != v
      ensures Occ([read, act], u) == 0
    {
      TwoCounts(read, act, u);
    }
  }

  lemma ReadThenActLabels(sch: Schemas, v: VerbId)
    requires v in sch.observe && v in sch.external
    ensures LabelPass(sch, map[], ReadThenAct(v), PUBLIC).Some?
  {
    var read, act := Let("x", Observe(v, [])), Effect(v, []);
    var none: Labels := map[];
    assert [read, act][..1] == [read] && [read][..0] == [];
    assert ArgsLabel(sch, none, [], sch.observe[v]) == Ok(sch.observe[v]);
    var env := none["x" := sch.observe[v]];
    assert LabelPass(sch, none, [read], PUBLIC) == Some(env);
    assert ArgsLabel(sch, env, [], PUBLIC) == Ok(PUBLIC);
  }

  // The read takes the only unit.
  lemma ReadSpends(cfg: Config, v: VerbId, st: RunState, c: Consent)
    requires v in cfg.schemas.observe && cfg.world(0, v, List([])).Returned?
    requires st.grants == [Mint({v}, c.budget, c.Expires())] && st.calls == 0 && c.budget == map[v := 1]
    requires cfg.alive(0, 0, v.handler) && cfg.clock(0) <= c.Expires()
    ensures var r := ExecStmt(cfg, st, Let("x", Observe(v, [])), PUBLIC, 2);
            && r.res.Ok? && r.st.calls == 1 && r.st.modes == st.modes
            && |r.st.grants| == 1 && Covers(r.st.grants[0], v)
            && v.verb in r.st.grants[0][v.handler].left && r.st.grants[0][v.handler].left[v.verb] == 0
            && r.st.grants[0][v.handler].expires == c.Expires()
  {
    hide Mint;
    var grant := Mint({v}, c.budget, c.Expires());
    MintCovers({v}, c.budget, c.Expires(), v);
    MintLeft({v}, c.budget, c.Expires(), [], v);
    assert [] + [grant] == [grant];
    MintCounted({v}, c.budget, c.Expires(), v);
    var st1 := st.(steps := st.steps + 1);
    assert EvalArgs(cfg, st1, [], cfg.schemas.observe[v]) == Run(st1, Ok(Args([], cfg.schemas.observe[v])));
    assert Exercise(cfg, 0, [grant], v, 0, NoCapability) == Open([grant][0 := Spend(grant, v)]);
    assert Invoke(cfg, st1, v, List([])).Got?;
  }

  // A verb that is read and performed pays for the read: with consent for exactly the effect the
  // admission walk counts, the admitted and started run is refused, however long its
  // capabilities last.
  lemma SharedVerbExhausts(cfg: Config, v: VerbId, c: Consent, signals: seq<Signal>)
    requires v in cfg.schemas.observe && v in cfg.schemas.external && !cfg.withhold(v, List([]))
    requires cfg.world(0, v, List([])).Returned? && c.budget == map[v := 1] && Timely(cfg, c, 0, 0, 2)
    ensures var stmts := ReadThenAct(v);
            && Startable(stmts, cfg.schemas, c) && EscalateFree(stmts)
            && Occ(stmts, v) + ReadOcc(stmts, v) == Amount(c.budget, v) + 1
            && RunOf(cfg, stmts, c, signals).res == Err(FailStop(OutOfBudget(v)))
  {
    hide ExecStmt, Mint, Admissible, EscalateFree;
    var read, act := Let("x", Observe(v, [])), Effect(v, []);
    ReadThenActFacts(cfg.schemas, v);
    var st := Started([read, act], c, signals);
    assert cfg.alive(0, 0, v.handler) && cfg.clock(0) <= c.Expires();
    assert cfg.alive(1, 0, v.handler) && cfg.clock(1) <= c.Expires();
    ReadSpends(cfg, v, st, c);
    ExecTwo(cfg, st, read, act);
    ActRefused(cfg, v, ExecStmt(cfg, st, read, PUBLIC, 2).st, c);
  }

  lemma ActRefused(cfg: Config, v: VerbId, st: RunState, c: Consent)
    requires !cfg.withhold(v, List([])) && st.calls == 1 && st.modes == []
    requires |st.grants| == 1 && Covers(st.grants[0], v) && st.grants[0][v.handler].expires == c.Expires()
    requires v.verb in st.grants[0][v.handler].left && st.grants[0][v.handler].left[v.verb] == 0
    requires cfg.alive(1, 0, v.handler) && cfg.clock(1) <= c.Expires()
    ensures ExecStmt(cfg, st, Effect(v, []), PUBLIC, 1).res == Err(FailStop(OutOfBudget(v)))
  {
    var mid := st.(steps := st.steps + 1);
    assert EvalArgs(cfg, mid, [], PUBLIC) == Run(mid, Ok(Args([], PUBLIC)));
    assert Exercise(cfg, 1, mid.grants, v, 1, BudgetExhausted) == BudgetExhausted;
    assert Exercise(cfg, 1, mid.grants, v, 0, NoCapability) == BudgetExhausted;
  }

  // ----- a read-only verb that the consent counts -----

  function JustRead(v: VerbId): seq<Stmt> {
    [Let("x", Observe(v, []))]
  }

  lemma JustReadFacts(sch: Schemas, v: VerbId, c: Consent)
    requires v in sch.observe
    ensures var stmts := JustRead(v);
            && Startable(stmts, sch, c) && EscalateFree(stmts) && EffectVerbs(stmts) == {} && VerbDemand(stmts) == {v}
            && ReadOcc(stmts, v) == 1 && forall u :: Occ(stmts, u) == 0
  {
    var read := Let("x", Observe(v, []));
    var none: Labels := map[];
    assert ArgsDemand([]) == {} && ArgsNodes([]) == 0 && ArgsReads([], v) == 0;
    assert [read][..0] == [];
    assert EffectVerbs([read]) == StmtEffectVerbs(read);
    OneSizes(read, 1);
    OneCounts(read, v);
    forall u
      ensures Occ([read], u) == 0
    {
      OneCounts(read, u);
    }
    assert ArgsLabel(sch, none, [], sch.observe[v]) == Ok(sch.observe[v]);
    assert LabelPass(sch, none, [], PUBLIC) == Some(none);
    assert LabelPass(sch, none, [read], PUBLIC).Some?;
    assert DepthOk([read], 1);
  }

  // Reads are counted like effects wherever the consent names them, though admission never compares
  // them with the consent: for every consent this plan starts, performs nothing, and is refused at
  // its one read exactly when the consent does not suffice, that is, when it counts the verb at zero.
  lemma CountedReadExhausts(cfg: Config, v: VerbId, c: Consent, signals: seq<Signal>)
    requires v in cfg.schemas.observe && Timely(cfg, c, 0, 0, 1)
    ensures var stmts := JustRead(v);
            var r := RunOf(cfg, stmts, c, signals);
            && Startable(stmts, cfg.schemas, c) && EscalateFree(stmts) && Suffices(stmts, c, EffectVerbs(stmts))
            && (Suffices(stmts, c, VerbDemand(stmts)) <==> v !in c.budget || c.budget[v] > 0)
            && r.st.asked == [Asked(v, if v in c.budget && c.budget[v] == 0 then Exhausted else Passed)]
            && (v in c.budget && c.budget[v] == 0 ==> r.res == Err(FailStop(CallFailed(v))))
  {
    hide Mint, Startable, EscalateFree, Exercise;
    var read := Let("x", Observe(v, []));
    JustReadFacts(cfg.schemas, v, c);
    assert v in VerbDemand(JustRead(v));
    var st := Started([read], c, signals);
    ExecOne(cfg, st, read, 1);
    assert cfg.alive(0, 0, v.handler) && cfg.clock(0) <= c.Expires();
    var st1 := st.(steps := st.steps + 1);
    assert EvalArgs(cfg, st1, [], cfg.schemas.observe[v]) == Run(st1, Ok(Args([], cfg.schemas.observe[v])));
    OneGrantGate(cfg, v, c);
    BlockOne(cfg, st, read);
  }

  // The gate of a first call under one minted grant.
  lemma OneGrantGate(cfg: Config, v: VerbId, c: Consent)
    requires cfg.alive(0, 0, v.handler) && cfg.clock(0) <= c.Expires()
    ensures var g := Exercise(cfg, 0, [Mint({v}, c.budget, c.Expires())], v, 0, NoCapability);
            if v in c.budget && c.budget[v] == 0 then g.BudgetExhausted? else g.Open?
  {
    hide Mint;
    var grants := [Mint({v}, c.budget, c.Expires())];
    MintCovers({v}, c.budget, c.Expires(), v);
    MintCounted({v}, c.budget, c.Expires(), v);
    if v in c.budget {
      MintLeft({v}, c.budget, c.Expires(), [], v);
      assert [] + grants == grants;
    }
    assert Exercise(cfg, 0, grants, v, 1, BudgetExhausted) == BudgetExhausted;
  }

  // ----- a consent that runs out during the run -----

  // Past the consent's time an effect is refused: for lack of budget once the holding was swept,
  // as a failed call before that.
  lemma ExpiredConsentStops(cfg: Config, v: VerbId, c: Consent, signals: seq<Signal>)
    requires v in cfg.schemas.external && !cfg.withhold(v, List([])) && Amount(c.budget, v) >= 1
    requires cfg.clock(0) > c.Expires()
    ensures var stmts := [Effect(v, [])];
            && Startable(stmts, cfg.schemas, c) && EscalateFree(stmts) && ReadOcc(stmts, v) == 0
            && RunOf(cfg, stmts, c, signals).res ==
               Err(FailStop(if cfg.alive(0, 0, v.handler) then CallFailed(v) else OutOfBudget(v)))
  {
    hide Mint;
    var none: Labels := map[];
    assert ArgsLabel(cfg.schemas, none, [], PUBLIC) == Ok(PUBLIC) && ArgsNodes([]) == 0;
    OneEffect(cfg.schemas, v, [], none);
    var s := Effect(v, []);
    var st := Started([s], c, signals);
    ExecOne(cfg, st, s, 1);
    MintCovers({v}, c.budget, c.Expires(), v);
    MintCounted({v}, c.budget, c.Expires(), v);
    var st1 := st.(steps := 1);
    assert EvalArgs(cfg, st1, [], PUBLIC) == Run(st1, Ok(Args([], PUBLIC)));
    assert Exercise(cfg, 0, st1.grants, v, 1, Expired) == Expired;
    assert Exercise(cfg, 0, st1.grants, v, 1, NoCapability) == NoCapability;
  }

  // ----- an escalating loop that is resumed -----

  function OneAtMost(v: VerbId): seq<Stmt> {
    [Foreach("i", Const(List([Null, Null])), 1, Escalate, [Effect(v, [])])]
  }

  lemma OneAtMostFacts(sch: Schemas, v: VerbId)
    requires v in sch.external
    ensures var stmts := OneAtMost(v);
            Admissible(stmts, sch) && Steps(stmts) == 2 && Occ(stmts, v) == 1 && forall u :: u != v ==>
              Occ(stmts, u) == 0
  {
    var none: Labels := map[];
    var body := [Effect(v, [])];
    var s := OneAtMost(v)[0];
    var env := none["i" := PUBLIC];
    assert [s][..0] == [];
    assert PUBLIC.Join(PUBLIC) == PUBLIC;
    assert ArgsLabel(sch, env, [], PUBLIC) == Ok(PUBLIC) && ArgsNodes([]) == 0;
    OneEffect(sch, v, [], env);
    assert LabelStmt(sch, none, s, PUBLIC) == Some(env);
    assert LabelPass(sch, none, [], PUBLIC) == Some(none);
    OneSizes(Effect(v, []), 2);
    assert DepthOk(body, 2) && StmtDepthOk(s, 1);
    assert Steps(body) == 1 && Nodes(body) == 1;
    assert StmtNodes(s) == 3 && StmtSteps(s) == 1 + 1 * Steps(body);
    OneSizes(s, 1);
    forall u
      ensures Occ([s], u) == if u == v then 1 else 0
    {
      assert StmtOcc(s, u) == 1 * Occ(body, u);
      OneCounts(s, u);
    }
  }

  // One round of the loop: the effect is withheld, at one step.
  lemma WithheldRound(cfg: Config, v: VerbId, st: RunState)
    requires cfg.withhold(v, List([])) && (forall n :: cfg.stored(n))
    ensures var r := ExecBlock(cfg, st, [Effect(v, [])], PUBLIC);
            r.res == Ok(()) && r.st.steps == st.steps + 1 && r.st.trace == st.trace + [v]
  {
    hide NextNum;
    var s := Effect(v, []);
    ExecOne(cfg, st, s, 1);
    var st1 := st.(steps := st.steps + 1);
    assert EvalArgs(cfg, st1, [], PUBLIC) == Run(st1, Ok(Args([], PUBLIC)));
  }

  // A resumed escalating loop runs over its whole list: more statements than the step bound of
  // the admitted plan, and more effects than its budget.
  lemma ResumedOverrun(cfg: Config, v: VerbId, c: Consent, more: Consent)
    requires v in cfg.schemas.external && Amount(c.budget, v) >= 1
    requires cfg.withhold(v, List([])) && forall n :: cfg.stored(n)
    ensures var stmts := OneAtMost(v);
            var end := ExecBlock(cfg, Started(stmts, c, [Resume(more, None)]), stmts, PUBLIC).st;
            && Startable(stmts, cfg.schemas, c)
            && end.steps > Steps(stmts) && CountOf(end.trace, v) > Occ(stmts, v)
  {
    hide Mint, ExecBlock;
    OneAtMostFacts(cfg.schemas, v);
    var s := OneAtMost(v)[0];
    var st := Started(OneAtMost(v), c, [Resume(more, None)]);
    ExecOne(cfg, st, s, 1);
    OverrunRounds(cfg, v, st, more);
    var end := ExecStmt(cfg, st, s, PUBLIC, 1).st;
    assert end.trace[..1] == [v] && [v][..0] == [] && end.trace[1] == v;
    assert ExecBlock(cfg, st, OneAtMost(v), PUBLIC) == ExecStmt(cfg, st, s, PUBLIC, 1) by {
      BlockOne(cfg, st, s);
    }
  }

  lemma BlockOne(cfg: Config, st: RunState, s: Stmt)
    ensures ExecBlock(cfg, st, [s], PUBLIC) == ExecStmt(cfg, st, s, PUBLIC, 1)
  {
    hide ExecStmt;
    ExecOne(cfg, st, s, 1);
  }

  lemma OverrunRounds(cfg: Config, v: VerbId, st: RunState, more: Consent)
    requires cfg.withhold(v, List([])) && forall n :: cfg.stored(n)
    requires st.signals == [Resume(more, None)] && st.steps == 0 && st.trace == []
    ensures var r := ExecStmt(cfg, st, OneAtMost(v)[0], PUBLIC, 1);
            r.st.steps == 3 && r.st.trace == [v, v]
  {
    hide ExecBlock, Mint;
    var items, body := [Null, Null], [Effect(v, [])];
    var st1 := st.(steps := 1);
    assert Eval(cfg, st1, Const(List(items))) == Run(st1, Ok(Tagged(List(items), PUBLIC)));
    var p := Park(st1).st;
    assert Admitted(st1, 2, 1, Escalate) == Run(p, Ok(2));
    assert items[..2] == items && items[..1] == [Null] && [Null][..0] == [];
    assert PUBLIC.Join(PUBLIC) == PUBLIC;
    var inner := p.(modes := p.modes + [Escalate]);
    var a := inner.(env := inner.env["i" := Tagged(Null, PUBLIC)]);
    WithheldRound(cfg, v, a);
    assert ExecItems(cfg, inner, "i", [], PUBLIC, body, PUBLIC) == Run(inner, Ok(()));
    var one := ExecItems(cfg, inner, "i", [Null], PUBLIC, body, PUBLIC);
    assert one == ExecBlock(cfg, a, body, PUBLIC);
    var b := one.st.(env := one.st.env["i" := Tagged(Null, PUBLIC)]);
    WithheldRound(cfg, v, b);
    assert ExecItems(cfg, inner, "i", items, PUBLIC, body, PUBLIC) == ExecBlock(cfg, b, body, PUBLIC);
  }
}
