// Static labels cover the labels of every run.

module PlanLabels {
  import opened Prelude
  import opened PlanShapes
  import opened PlanIr
  import opened PlanCheck
  import opened PlanAnnotations
  import opened PlanAdmission
  import opened PlanSemantics
  import opened PlanFrames
  import opened PlanRuns
  import opened PlanBudget
  import opened PlanStart

  // Every variable carries at most the label the walk gave its name.
  predicate Covered(f: Labels, env: Env) {
    forall x :: x in env ==> x in f && env[x].taint.Leq(f[x])
  }

  predicate SubLabels(a: Labels, b: Labels) {
    forall x :: x in a ==> x in b && a[x] == b[x]
  }

  // ----- the walk only adds names -----

  lemma {:induction false} PassAdds(sch: Schemas, env: Labels, stmts: seq<Stmt>, pc: Label)
    requires LabelPass(sch, env, stmts, pc).Some?
    ensures var after := LabelPass(sch, env, stmts, pc).value;
            && after.Keys == env.Keys + BoundNames(stmts)
            && (BindsOnce(stmts, env.Keys) ==> SubLabels(env, after))
    decreases stmts, 0
  {
    hide LabelStmt, StmtBoundNames, StmtBindsOnce;
    if stmts != [] {
      var n := |stmts| - 1;
      PassAdds(sch, env, stmts[..n], pc);
      StmtAdds(sch, LabelPass(sch, env, stmts[..n], pc).value, stmts[n], pc);
    }
  }

  lemma {:induction false} StmtAdds(sch: Schemas, env: Labels, s: Stmt, pc: Label)
    requires LabelStmt(sch, env, s, pc).Some?
    ensures var after := LabelStmt(sch, env, s, pc).value;
            && after.Keys == env.Keys + StmtBoundNames(s)
            && (StmtBindsOnce(s, env.Keys) ==> SubLabels(env, after))
    decreases s, 0
  {
    hide ExprLabel, ArgsLabel, GuardLabel;
    match s {
      case Let(_, _) =>
      case Effect(_, _) =>
      case If(g, a, b) =>
        var pc2 := pc.Join(GuardLabel(sch, env, g).value);
        PassAdds(sch, env, a, pc2);
        PassAdds(sch, LabelPass(sch, env, a, pc2).value, b, pc2);
      case Foreach(x, list, _, _, body) =>
        var l := ExprLabel(sch, env, list).value;
        PassAdds(sch, env[x := l], body, pc.Join(l));
        assert env[x := l].Keys == env.Keys + {x};
    }
  }

  // ----- expressions and guards -----

  // At a site where the walk knows `w`, part of the final labels `f`.
  predicate AtSite(w: Labels, f: Labels, env: Env) {
    SubLabels(w, f) && Covered(f, env)
  }

  lemma {:induction false} ExprSound(cfg: Config, st: RunState, e: Expr, w: Labels, f: Labels)
    requires AtSite(w, f, st.env) && ExprLabel(cfg.schemas, w, e).Ok?
    ensures Eval(cfg, st, e).res.Ok? ==> Eval(cfg, st, e).res.value.taint.Leq(ExprLabel(cfg.schemas, w, e).value)
    decreases e, 0
  {
    hide Gated;
    match e {
      case Observe(verb, args) => ArgsSound(cfg, st, args, cfg.schemas.observe[verb], cfg.schemas.observe[verb], w, f);
      case Pure(func, args) => ArgsSound(cfg, st, args, PUBLIC, PUBLIC, w, f);
      case Const(v) =>
      case Var(x) =>
      case Index(base, i) => ExprSound(cfg, st, base, w, f);
    }
  }

  lemma {:induction false} ArgsSound(cfg: Config, st: RunState, args: seq<Expr>, low: Label, high: Label,
                                     w: Labels, f: Labels)
    requires AtSite(w, f, st.env) && low.Leq(high) && ArgsLabel(cfg.schemas, w, args, high).Ok?
    ensures EvalArgs(cfg, st, args, low).res.Ok? ==>
              EvalArgs(cfg, st, args, low).res.value.taint.Leq(ArgsLabel(cfg.schemas, w, args, high).value)
    decreases args, 0
  {
    hide Eval;
    if args != [] {
      var n := |args| - 1;
      ArgsSound(cfg, st, args[..n], low, high, w, f);
      ArgsFrame(cfg, st, args[..n], low);
      ExprSound(cfg, EvalArgs(cfg, st, args[..n], low).st, args[n], w, f);
    }
  }

  lemma {:induction false} GuardSound(cfg: Config, st: RunState, g: Guard, w: Labels, f: Labels)
    requires AtSite(w, f, st.env) && GuardLabel(cfg.schemas, w, g).Ok?
    ensures EvalGuard(cfg, st, g).res.Ok? ==>
              EvalGuard(cfg, st, g).res.value.taint.Leq(GuardLabel(cfg.schemas, w, g).value)
    decreases g, 1
  {
    hide Eval, ExprLabel;
    match g {
      case Exists(e) => ExprSound(cfg, st, e, w, f);
      case Matches(e, _) => ExprSound(cfg, st, e, w, f);
      case Cmp(a, _, b) =>
        ExprSound(cfg, st, a, w, f);
        EvalFrame(cfg, st, a);
        ExprSound(cfg, Eval(cfg, st, a).st, b, w, f);
      case And(_, _) => PairSound(cfg, st, g, w, f);
      case Or(_, _) => PairSound(cfg, st, g, w, f);
      case Not(h) => GuardSound(cfg, st, h, w, f);
    }
  }

  lemma {:induction false} PairSound(cfg: Config, st: RunState, g: Guard, w: Labels, f: Labels)
    requires g.And? || g.Or?
    requires AtSite(w, f, st.env) && GuardLabel(cfg.schemas, w, g).Ok?
    ensures EvalGuard(cfg, st, g).res.Ok? ==>
              EvalGuard(cfg, st, g).res.value.taint.Leq(GuardLabel(cfg.schemas, w, g).value)
    decreases g, 0
  {
    GuardSound(cfg, st, g.l, w, f);
    GuardFrame(cfg, st, g.l);
    GuardSound(cfg, EvalGuard(cfg, st, g.l).st, g.r, w, f);
  }

  // ----- statements -----

  // Some annotation of the verb carries at least this label.
  ghost predicate Annotated(anns: seq<EffectAnn>, v: VerbId, low: Label) {
    exists k: nat :: k < |anns| && anns[k].verb == v && low.Leq(anns[k].effective)
  }

  // Every performed effect ran under a label that the walk wrote down for its verb.
  ghost predicate Marked(anns: seq<EffectAnn>, st: RunState) {
    && |st.notes| == |st.trace|
    && forall i :: 0 <= i < |st.trace| ==> Annotated(anns, st.trace[i], st.notes[i].effective)
  }

  // The environment stays covered, the performed effects annotated, and no effect is refused
  // at its sink.
  ghost predicate Sound(f: Labels, anns: seq<EffectAnn>, r: Run<()>) {
    && Covered(f, r.st.env) && Marked(anns, r.st)
    && (r.res.Err? && r.res.error.FailStop? ==> !r.res.error.at.SinkRefused?)
  }

  predicate Among(part: seq<EffectAnn>, anns: seq<EffectAnn>) {
    forall a :: a in part ==> a in anns
  }

  // Where a list of statements runs: the walk knows `w` and multiplies by `mult`; the final
  // labels are `f`, the final annotations `anns`.
  datatype Site = Site(w: Labels, f: Labels, mult: nat, anns: seq<EffectAnn>)

  ghost predicate ListAt(sch: Schemas, x: Site, stmts: seq<Stmt>, high: Label) {
    && BindsOnce(stmts, x.w.Keys)
    && LabelPass(sch, x.w, stmts, high).Some? && SubLabels(LabelPass(sch, x.w, stmts, high).value, x.f)
    && Among(Anns(sch, x.w, stmts, high, x.mult), x.anns)
  }

  ghost predicate StmtAt(sch: Schemas, x: Site, s: Stmt, high: Label) {
    && StmtBindsOnce(s, x.w.Keys)
    && LabelStmt(sch, x.w, s, high).Some? && SubLabels(LabelStmt(sch, x.w, s, high).value, x.f)
    && Among(StmtAnns(sch, x.w, s, high, x.mult), x.anns)
  }

  lemma {:induction false} EmitNoSink(cfg: Config, st: RunState, v: VerbId, target: Name, arg: Value, low: Label,
                                      remaining: nat)
    ensures var r := Emit(cfg, st, v, target, arg, low, remaining);
            r.res.Err? && r.res.error.FailStop? ==> !r.res.error.at.SinkRefused?
    decreases |st.signals|
  {
    hide Gated, Mint;
    var after := InvokeState(cfg, st, v);
    if Invoke(cfg, st, v, arg).GateRefused? && CurrentMode(st).Escalate? && Park(after).res.Ok? {
      EmitNoSink(cfg, Park(after).st, v, target, arg, low, remaining);
    }
  }

  lemma MarkOneMore(anns: seq<EffectAnn>, a: RunState, b: RunState, v: VerbId, note: Note)
    requires Marked(anns, a) && Annotated(anns, v, note.effective)
    requires b.trace == a.trace + [v] && b.notes == a.notes + [note]
    ensures Marked(anns, b)
  {
    hide Annotated;
  }

  // The label an effect runs under lies below the one its annotation carries.
  lemma EffectSound(cfg: Config, st: RunState, v: VerbId, args: seq<Expr>, low: Label, high: Label, x: Site,
                    remaining: nat)
    requires AtSite(x.w, x.f, st.env) && Marked(x.anns, st) && low.Leq(high)
    requires StmtAt(cfg.schemas, x, Effect(v, args), high)
    ensures Sound(x.f, x.anns, ExecEffect(cfg, st, v, args, low, remaining))
  {
    hide Emit, EvalArgs, ArgsLabel, Marked, NextNum;
    ArgsSound(cfg, st, args, low, high, x.w, x.f);
    EffectTrace(cfg, st, v, args, low, remaining);
    ArgsFrame(cfg, st, args, low);
    ArgsFailure(cfg, st, args, low);
    var a := EvalArgs(cfg, st, args, low);
    var r := ExecEffect(cfg, st, v, args, low, remaining);
    MarkedFrame(x.anns, st, a.st);
    if a.res.Ok? {
      var arg, eff := EffectArg(a.res.value.vals), a.res.value.taint;
      var high2 := ArgsLabel(cfg.schemas, x.w, args, high).value;
      SiteAnnotated(cfg.schemas, x, v, args, high, eff);
      EmitNoSink(cfg, a.st, v, cfg.target(v, arg), arg, eff, remaining);
      EmitTrace(cfg, a.st, v, cfg.target(v, arg), arg, eff, remaining);
      if r.res.Ok? {
        MarkOneMore(x.anns, a.st, r.st, v, Note(eff, cfg.withhold(v, arg)));
      } else {
        MarkedFrame(x.anns, a.st, r.st);
      }
    }
  }

  lemma SiteAnnotated(sch: Schemas, x: Site, v: VerbId, args: seq<Expr>, high: Label, eff: Label)
    requires StmtAt(sch, x, Effect(v, args), high) && eff.Leq(ArgsLabel(sch, x.w, args, high).value)
    ensures Annotated(x.anns, v, eff)
  {
    var ann := EffectAnn(v, ArgsLabel(sch, x.w, args, high).value, x.mult);
    assert ann in StmtAnns(sch, x.w, Effect(v, args), high, x.mult);
    assert ann in x.anns;
    var k: nat :| k < |x.anns| && x.anns[k] == ann;
  }

  lemma MarkedFrame(anns: seq<EffectAnn>, a: RunState, b: RunState)
    requires Marked(anns, a) && b.trace == a.trace && b.notes == a.notes
    ensures Marked(anns, b)
  {
    hide Annotated;
  }

  lemma {:induction false} ListSound(cfg: Config, st: RunState, stmts: seq<Stmt>, low: Label, high: Label, x: Site,
                                     total: nat)
    requires |stmts| <= total && low.Leq(high) && ListAt(cfg.schemas, x, stmts, high)
    requires Covered(x.f, st.env) && Marked(x.anns, st)
    ensures Sound(x.f, x.anns, ExecList(cfg, st, stmts, low, total))
    decreases stmts, 0
  {
    hide ExecStmt, LabelStmt, StmtBindsOnce, Covered, Marked, StmtAnns;
    if stmts != [] {
      var n := |stmts| - 1;
      ListSplits(cfg.schemas, x, stmts, high);
      var mid := LabelPass(cfg.schemas, x.w, stmts[..n], high).value;
      ListSound(cfg, st, stmts[..n], low, high, x, total);
      var front := ExecList(cfg, st, stmts[..n], low, total);
      if front.res.Ok? {
        StmtSound(cfg, front.st, stmts[n], low, high, x.(w := mid), total - n);
      }
    }
  }

  lemma ListSplits(sch: Schemas, x: Site, stmts: seq<Stmt>, high: Label)
    requires stmts != [] && ListAt(sch, x, stmts, high)
    ensures ListAt(sch, x, stmts[..|stmts| - 1], high)
    ensures var mid := LabelPass(sch, x.w, stmts[..|stmts| - 1], high).value;
            StmtAt(sch, x.(w := mid), stmts[|stmts| - 1], high)
  {
    hide LabelStmt, StmtBindsOnce, StmtAnns;
    var n := |stmts| - 1;
    var mid := LabelPass(sch, x.w, stmts[..n], high).value;
    PassAdds(sch, x.w, stmts[..n], high);
    StmtAdds(sch, mid, stmts[n], high);
  }

  lemma {:induction false} StmtSound(cfg: Config, st: RunState, s: Stmt, low: Label, high: Label, x: Site,
                                     remaining: nat)
    requires low.Leq(high) && StmtAt(cfg.schemas, x, s, high)
    requires Covered(x.f, st.env) && Marked(x.anns, st)
    ensures Sound(x.f, x.anns, ExecStmt(cfg, st, s, low, remaining))
    decreases s, 1
  {
    hide Eval, EvalGuard, ExecEffect, ExecItems, ExecList, ExprLabel, GuardLabel, ArgsLabel, Marked, Among, StmtAnns;
    var st1 := st.(steps := st.steps + 1);
    MarkedFrame(x.anns, st, st1);
    StmtAdds(cfg.schemas, x.w, s, high);
    match s {
      case Let(y, e) =>
        ExprSound(cfg, st1, e, x.w, x.f);
        EvalFrame(cfg, st1, e);
        ExprFailure(cfg, st1, e);
        MarkedFrame(x.anns, st1, ExecStmt(cfg, st, s, low, remaining).st);
      case Effect(verb, args) =>
        EffectSound(cfg, st1, verb, args, low, high, x, remaining);
      case If(_, _, _) => IfSound(cfg, st, s, low, high, x, remaining);
      case Foreach(_, _, _, _, _) => LoopSound(cfg, st, s, low, high, x, remaining);
    }
  }

  lemma {:induction false} IfSound(cfg: Config, st: RunState, s: Stmt, low: Label, high: Label, x: Site, remaining: nat)
    requires s.If? && low.Leq(high) && StmtAt(cfg.schemas, x, s, high)
    requires Covered(x.f, st.env) && Marked(x.anns, st)
    ensures Sound(x.f, x.anns, ExecStmt(cfg, st, s, low, remaining))
    decreases s, 0
  {
    hide EvalGuard, GuardLabel, Marked, ListAt, StmtAt;
    var st1 := st.(steps := st.steps + 1);
    MarkedFrame(x.anns, st, st1);
    ArmsAt(cfg.schemas, x, s, high);
    var high2 := high.Join(GuardLabel(cfg.schemas, x.w, s.guard).value);
    var mid := LabelPass(cfg.schemas, x.w, s.thenArm, high2).value;
    GuardSound(cfg, st1, s.guard, x.w, x.f);
    GuardFrame(cfg, st1, s.guard);
    GuardFailure(cfg, st1, s.guard);
    var v := EvalGuard(cfg, st1, s.guard);
    MarkedFrame(x.anns, st1, v.st);
    if v.res.Ok? {
      var low2 := low.Join(v.res.value.taint);
      if v.res.value.holds {
        ListSound(cfg, v.st, s.thenArm, low2, high2, x, |s.thenArm|);
      } else {
        ListSound(cfg, v.st, s.elseArm, low2, high2, x.(w := mid), |s.elseArm|);
      }
    }
  }

  lemma ArmsAt(sch: Schemas, x: Site, s: Stmt, high: Label)
    requires s.If? && StmtAt(sch, x, s, high)
    ensures SubLabels(x.w, x.f) && GuardLabel(sch, x.w, s.guard).Ok?
    ensures var high2 := high.Join(GuardLabel(sch, x.w, s.guard).value);
            && ListAt(sch, x, s.thenArm, high2) && LabelPass(sch, x.w, s.thenArm, high2).Some?
            && ListAt(sch, x.(w := LabelPass(sch, x.w, s.thenArm, high2).value), s.elseArm, high2)
  {
    hide GuardLabel;
    var high2 := high.Join(GuardLabel(sch, x.w, s.guard).value);
    PassAdds(sch, x.w, s.thenArm, high2);
    PassAdds(sch, LabelPass(sch, x.w, s.thenArm, high2).value, s.elseArm, high2);
  }

  lemma BodyAt(sch: Schemas, x: Site, s: Stmt, high: Label)
    requires s.Foreach? && StmtAt(sch, x, s, high)
    ensures SubLabels(x.w, x.f) && ExprLabel(sch, x.w, s.list).Ok?
    ensures var tag := ExprLabel(sch, x.w, s.list).value;
            var inside := x.(w := x.w[s.item := tag], mult := x.mult * s.bound);
            ListAt(sch, inside, s.body, high.Join(tag)) && SubLabels(inside.w, x.f)
  {
    hide ExprLabel;
    var tag := ExprLabel(sch, x.w, s.list).value;
    var inside := x.w[s.item := tag];
    assert inside.Keys == x.w.Keys + {s.item};
    PassAdds(sch, inside, s.body, high.Join(tag));
  }

  lemma {:induction false} LoopSound(cfg: Config, st: RunState, s: Stmt, low: Label, high: Label, x: Site,
                                     remaining: nat)
    requires s.Foreach? && low.Leq(high) && StmtAt(cfg.schemas, x, s, high)
    requires Covered(x.f, st.env) && Marked(x.anns, st)
    ensures Sound(x.f, x.anns, ExecStmt(cfg, st, s, low, remaining))
    decreases s, 0
  {
    hide Eval, ExprLabel, ExecItems, Marked, ListAt, StmtAt, Park;
    var st1 := st.(steps := st.steps + 1);
    MarkedFrame(x.anns, st, st1);
    BodyAt(cfg.schemas, x, s, high);
    var tag := ExprLabel(cfg.schemas, x.w, s.list).value;
    ExprSound(cfg, st1, s.list, x.w, x.f);
    EvalFrame(cfg, st1, s.list);
    ExprFailure(cfg, st1, s.list);
    var l := Eval(cfg, st1, s.list);
    MarkedFrame(x.anns, st1, l.st);
    if l.res.Ok? {
      var items, taint := l.res.value.value.Items(), l.res.value.taint;
      var admitted := Admitted(l.st, |items|, s.bound, s.mode);
      ParkNoSink(l.st);
      AdmittedFrame(l.st, |items|, s.bound, s.mode);
      MarkedFrame(x.anns, l.st, admitted.st);
      if admitted.res.Ok? {
        var inner := admitted.st.(modes := admitted.st.modes + [s.mode]);
        var inside := x.(w := x.w[s.item := tag], mult := x.mult * s.bound);
        MarkedFrame(x.anns, admitted.st, inner);
        var taken := items[..admitted.res.value];
        ItemsSound(cfg, inner, s.item, taken, taint, s.body, low.Join(taint), high.Join(tag), inside);
        var r := ExecItems(cfg, inner, s.item, taken, taint, s.body, low.Join(taint));
        MarkedFrame(x.anns, r.st, r.st.(modes := PopMode(r.st.modes)));
      }
    }
  }

  lemma ParkNoSink(st: RunState)
    ensures Park(st).st.env == st.env
    ensures Park(st).res.Err? && Park(st).res.error.FailStop? ==> !Park(st).res.error.at.SinkRefused?
  {
    hide Mint;
  }

  // The iterations keep what a single run of the body keeps, given that the loop variable and
  // the program counter lie below the labels the walk used for the body.
  lemma {:induction false} ItemsSound(cfg: Config, st: RunState, item: Name, items: seq<Value>, taint: Label,
                                      body: seq<Stmt>, low: Label, high: Label, x: Site)
    requires item in x.w && taint.Leq(x.w[item]) && low.Leq(high) && ListAt(cfg.schemas, x, body, high)
    requires SubLabels(x.w, x.f) && Covered(x.f, st.env) && Marked(x.anns, st)
    ensures Sound(x.f, x.anns, ExecItems(cfg, st, item, items, taint, body, low))
    decreases body, |items| + 2
  {
    hide ExecList, ListAt, Marked;
    if items != [] {
      var n := |items| - 1;
      ItemsSound(cfg, st, item, items[..n], taint, body, low, high, x);
      var front := ExecItems(cfg, st, item, items[..n], taint, body, low);
      if front.res.Ok? {
        var next := front.st.(env := front.st.env[item := Tagged(items[n], taint)]);
        MarkedFrame(x.anns, front.st, next);
        ListSound(cfg, next, body, low, high, x, |body|);
      }
    }
  }

  // For an admitted plan that binds each name at one site: in every run, each performed effect
  // ran under a label below an annotation of its verb in the admission record, the environment
  // stays under the admitted labels, and the sink re-check never fires.
  lemma RunLabels(cfg: Config, stmts: seq<Stmt>, grant: Grant, nonce: Name, signals: seq<Signal>)
    requires Admissible(stmts, cfg.schemas) && BindsOnce(stmts, {})
    ensures var r := ExecBlock(cfg, Initial(grant, nonce, signals), stmts, PUBLIC);
            Sound(LabelPass(cfg.schemas, map[], stmts, PUBLIC).value, Anns(cfg.schemas, map[], stmts, PUBLIC, 1), r)
  {
    hide ExecList, BindsOnce, LabelPass, Anns;
    var none: Labels := map[];
    assert none.Keys == {};
    var f, anns := LabelPass(cfg.schemas, none, stmts, PUBLIC).value, Anns(cfg.schemas, none, stmts, PUBLIC, 1);
    ListSound(cfg, Initial(grant, nonce, signals), stmts, PUBLIC, PUBLIC, Site(none, f, 1, anns), |stmts|);
  }

  // ----- why one binding site -----

  const SEND: VerbId := Leaf("mail", "send")
  const SECRET: VerbId := Leaf("vault", "read")
  const SECRECY: Schemas := Schemas(map[SECRET := Label({"secret"}, {})], map[SEND := true])

  // The loop body sends `x`, then rebinds it: the walk sees a public `x` at the send, the
  // second round sees a secret one.
  const SEND_X: Stmt := Effect(SEND, [Var("x")])
  const READ_X: Stmt := Let("x", Observe(SECRET, []))
  const START_X: Stmt := Let("x", Const(Null))
  const TWICE: Stmt := Foreach("i", Const(List([Null, Null])), 2, Strict, [SEND_X, READ_X])
  const REBINDING: seq<Stmt> := [START_X, TWICE]

  const BOTH: Grant := map["mail" := Cap({"send"}, map[], 0), "vault" := Cap({"read"}, map[], 0)]

  // Both capabilities are in force at every call.
  ghost predicate Endless(cfg: Config) {
    forall n: nat, k: nat, f: Name :: cfg.alive(n, k, f) && cfg.clock(n) == 0
  }

  lemma RebindingAdmitted()
    ensures Admissible(REBINDING, SECRECY) && !BindsOnce(REBINDING, {})
  {
    var body := [SEND_X, READ_X];
    assert body[..1] == [SEND_X] && [SEND_X][..0] == [] && REBINDING[..1] == [START_X] && [START_X][..0] == [];
    var args := [Var("x")];
    assert args[..0] == [];
    var none: Labels := map[];
    var e1 := none["x" := PUBLIC];
    var e2 := e1["i" := PUBLIC];
    assert PUBLIC.Join(PUBLIC) == PUBLIC;
    assert ArgsLabel(SECRECY, e2, [], PUBLIC) == Ok(PUBLIC);
    assert ArgsLabel(SECRECY, e2, args, PUBLIC) == Ok(PUBLIC);
    assert LabelPass(SECRECY, e2, [SEND_X], PUBLIC) == Some(e2);
    assert ArgsLabel(SECRECY, e2, [], Label({"secret"}, {})).Ok?;
    assert LabelPass(SECRECY, e2, body, PUBLIC).Some?;
    assert LabelPass(SECRECY, none, [START_X], PUBLIC) == Some(e1);
    assert LabelStmt(SECRECY, e1, TWICE, PUBLIC).Some?;
    assert ArgsNodes([]) == 0 && ArgsNodes(args) == 1;
    TwoSizes(SEND_X, READ_X, 2);
    assert DepthOk(body, 2) && StmtDepthOk(TWICE, 1);
    TwoSizes(START_X, TWICE, 1);
    assert BoundNames([]) == {};
    assert BoundNames([START_X]) == {"x"};
    assert BoundNames([SEND_X]) == {};
    assert !StmtBindsOnce(READ_X, {"x"} + {"i"} + BoundNames([SEND_X]));
    assert !BindsOnce(body, {"x"} + {"i"});
  }

  lemma SendPublic(cfg: Config, st: RunState, remaining: nat)
    requires cfg.schemas == SECRECY && (forall a :: !cfg.withhold(SEND, a)) && Endless(cfg) && st.grants == [BOTH]
    requires forall n, v, a :: cfg.world(n, v, a).Returned?
    requires "x" in st.env
    ensures var r := ExecStmt(cfg, st, SEND_X, PUBLIC, remaining);
            if st.env["x"].taint.conf == {} then r.res.Ok? && r.st.env == st.env && r.st.grants == st.grants
            else r.res == Err(FailStop(SinkRefused(SEND)))
  {
    var st1 := st.(steps := st.steps + 1);
    var args := [Var("x")];
    assert args[..0] == [];
    assert EvalArgs(cfg, st1, [], PUBLIC) == Run(st1, Ok(Args([], PUBLIC)));
    assert Eval(cfg, st1, Var("x")) == Run(st1, Ok(st.env["x"]));
    var a := EvalArgs(cfg, st1, args, PUBLIC);
    assert a == Run(st1, Ok(Args([] + [st.env["x"].value], PUBLIC.Join(st.env["x"].taint))));
    assert cfg.alive(st.calls, 0, "mail");
    assert Exercise(cfg, st.calls, [BOTH], SEND, 0, NoCapability) == Open([BOTH]);
  }

  lemma ReadSecret(cfg: Config, st: RunState, remaining: nat)
    requires cfg.schemas == SECRECY && st.grants == [BOTH] && Endless(cfg)
    requires forall n, v, a :: cfg.world(n, v, a).Returned?
    ensures var r := ExecStmt(cfg, st, READ_X, PUBLIC, remaining);
            r.res.Ok? && "x" in r.st.env && r.st.env["x"].taint == Label({"secret"}, {}) && r.st.grants == st.grants
  {
    var st1 := st.(steps := st.steps + 1);
    assert EvalArgs(cfg, st1, [], Label({"secret"}, {})) == Run(st1, Ok(Args([], Label({"secret"}, {}))));
    assert cfg.alive(st.calls, 0, "vault");
    assert Exercise(cfg, st.calls, [BOTH], SECRET, 0, NoCapability) == Open([BOTH]);
  }

  // An admitted plan that rebinds a name can reach the run-time sink check.
  lemma RebindingReachesSink(cfg: Config, nonce: Name)
    requires cfg.schemas == SECRECY && (forall a :: !cfg.withhold(SEND, a)) && Endless(cfg)
    requires forall n, v, a :: cfg.world(n, v, a).Returned?
    ensures Admissible(REBINDING, cfg.schemas) && !BindsOnce(REBINDING, {})
    ensures ExecBlock(cfg, Initial(BOTH, nonce, []), REBINDING, PUBLIC).res == Err(FailStop(SinkRefused(SEND)))
  {
    RebindingAdmitted();
    hide ExecStmt, EvalArgs;
    var st := Initial(BOTH, nonce, []);
    var body := [SEND_X, READ_X];
    assert REBINDING[..1] == [START_X] && [START_X][..0] == [];
    StartPublic(cfg, st);
    var s1 := ExecStmt(cfg, st, START_X, PUBLIC, 2).st;
    assert ExecList(cfg, st, [START_X], PUBLIC, 2) == ExecStmt(cfg, st, START_X, PUBLIC, 2);
    TwoRounds(cfg, s1);
  }

  lemma StartPublic(cfg: Config, st: RunState)
    ensures var r := ExecStmt(cfg, st, START_X, PUBLIC, 2);
            r.res.Ok? && r.st.env == st.env["x" := Tagged(Null, PUBLIC)] && r.st.grants == st.grants
  {
  }

  lemma BodyRound(cfg: Config, st: RunState)
    requires cfg.schemas == SECRECY && (forall a :: !cfg.withhold(SEND, a)) && Endless(cfg) && st.grants == [BOTH]
    requires forall n, v, a :: cfg.world(n, v, a).Returned?
    requires "x" in st.env
    ensures var r := ExecBlock(cfg, st, [SEND_X, READ_X], PUBLIC);
            if st.env["x"].taint.conf == {} then
              r.res.Ok? && "x" in r.st.env && r.st.env["x"].taint == Label({"secret"}, {}) && r.st.grants == [BOTH]
            else r.res == Err(FailStop(SinkRefused(SEND)))
  {
    hide ExecStmt, EvalArgs;
    var body := [SEND_X, READ_X];
    assert body[..1] == [SEND_X] && [SEND_X][..0] == [];
    SendPublic(cfg, st, 2);
    var first := ExecStmt(cfg, st, SEND_X, PUBLIC, 2);
    assert ExecList(cfg, st, [SEND_X], PUBLIC, 2) == first;
    if first.res.Ok? {
      ReadSecret(cfg, first.st, 1);
    }
  }

  lemma TwoRounds(cfg: Config, st: RunState)
    requires cfg.schemas == SECRECY && (forall a :: !cfg.withhold(SEND, a)) && Endless(cfg) && st.grants == [BOTH]
    requires forall n, v, a :: cfg.world(n, v, a).Returned?
    requires "x" in st.env && st.env["x"].taint == PUBLIC
    ensures ExecStmt(cfg, st, TWICE, PUBLIC, 1).res == Err(FailStop(SinkRefused(SEND)))
  {
    hide ExecBlock, ExecList, EvalArgs;
    var st1 := st.(steps := st.steps + 1);
    var items := [Null, Null];
    var body := [SEND_X, READ_X];
    assert Eval(cfg, st1, Const(List(items))) == Run(st1, Ok(Tagged(List(items), PUBLIC)));
    assert items[..2] == items && items[..1] == [Null] && [Null][..0] == [];
    assert PUBLIC.Join(PUBLIC) == PUBLIC;
    var inner := st1.(modes := st1.modes + [Strict]);
    var a := inner.(env := inner.env["i" := Tagged(Null, PUBLIC)]);
    BodyRound(cfg, a);
    assert ExecItems(cfg, inner, "i", [], PUBLIC, body, PUBLIC) == Run(inner, Ok(()));
    var one := ExecItems(cfg, inner, "i", [Null], PUBLIC, body, PUBLIC);
    assert one == ExecBlock(cfg, a, body, PUBLIC);
    var b := one.st.(env := one.st.env["i" := Tagged(Null, PUBLIC)]);
    BodyRound(cfg, b);
    assert ExecItems(cfg, inner, "i", items, PUBLIC, body, PUBLIC) == ExecBlock(cfg, b, body, PUBLIC);
  }
}
