// Starting an admitted plan: the consent check, the minted capabilities, and what they
// guarantee for the whole run.

module PlanStart {
  import opened Prelude
  import opened PlanShapes
  import opened PlanIr
  import opened PlanCheck
  import opened PlanAdmission
  import opened PlanSemantics
  import opened PlanFrames
  import opened PlanRuns
  import opened PlanBudget
  import opened PlanFunds

  // ----- the verbs a plan asks for -----

  function ExprDemand(e: Expr): set<VerbId>
    decreases e, 0
  {
    match e
    case Observe(verb, args) => {verb} + ArgsDemand(args)
    case Pure(_, args) => {COMPUTE} + ArgsDemand(args)
    case Index(base, _) => ExprDemand(base)
    case Const(_) => {}
    case Var(_) => {}
  }

  function ArgsDemand(args: seq<Expr>): set<VerbId>
    decreases args, 0
  {
    if args == [] then {} else ArgsDemand(args[..|args| - 1]) + ExprDemand(args[|args| - 1])
  }

  function GuardDemand(g: Guard): set<VerbId> {
    match g
    case Exists(e) => ExprDemand(e)
    case Matches(e, _) => ExprDemand(e)
    case Cmp(a, _, b) => ExprDemand(a) + ExprDemand(b)
    case And(l, r) => GuardDemand(l) + GuardDemand(r)
    case Or(l, r) => GuardDemand(l) + GuardDemand(r)
    case Not(h) => GuardDemand(h)
  }

  function VerbDemand(stmts: seq<Stmt>): set<VerbId>
    decreases stmts, 0
  {
    if stmts == [] then {} else VerbDemand(stmts[..|stmts| - 1]) + StmtDemand(stmts[|stmts| - 1])
  }

  // The arguments of an effect are not searched.
  function StmtDemand(s: Stmt): set<VerbId>
    decreases s, 0
  {
    match s
    case Let(_, e) => ExprDemand(e)
    case Effect(verb, _) => {verb}
    case If(g, a, b) => GuardDemand(g) + VerbDemand(a) + VerbDemand(b)
    case Foreach(_, list, _, _, body) => ExprDemand(list) + VerbDemand(body)
  }

  lemma {:induction false} EffectsDemanded(stmts: seq<Stmt>)
    ensures EffectVerbs(stmts) <= VerbDemand(stmts)
    decreases stmts, 0
  {
    if stmts != [] {
      EffectsDemanded(stmts[..|stmts| - 1]);
      StmtEffectsDemanded(stmts[|stmts| - 1]);
    }
  }

  lemma {:induction false} StmtEffectsDemanded(s: Stmt)
    ensures StmtEffectVerbs(s) <= StmtDemand(s)
    decreases s, 0
  {
    match s {
      case Let(_, _) =>
      case Effect(_, _) =>
      case If(_, a, b) =>
        EffectsDemanded(a);
        EffectsDemanded(b);
      case Foreach(_, _, _, _, body) => EffectsDemanded(body);
    }
  }

  // ----- minting, family by family -----

  method MintFiberCaps(demand: set<VerbId>, counts: Amounts, expires: nat) returns (grant: Grant)
    ensures grant == Mint(demand, counts, expires)
  {
    hide Mint;
    grant := map[];
    var todo, done := demand, {};
    MintNothing(counts, expires);
    while todo != {}
      invariant todo !! done && todo + done == demand
      invariant grant == Mint(done, counts, expires)
      decreases |todo|
    {
      var v :| v in todo;
      var cap := if v.handler in grant then grant[v.handler] else Cap({}, map[], expires);
      MintOneMore(done, counts, expires, v);
      var left := cap.left;
      if v in counts {
        left := left[v.verb := counts[v]];
      }
      grant := grant[v.handler := cap.(verbs := cap.verbs + {v.verb}, left := left)];
      todo, done := todo - {v}, done + {v};
    }
    assert done == demand;
  }

  lemma MintNothing(counts: Amounts, expires: nat)
    ensures Mint({}, counts, expires) == map[]
  {
    assert Families({}) == {};
  }

  function WithVerb(cap: Cap, counts: Amounts, v: VerbId): Cap {
    cap.(verbs := cap.verbs + {v.verb}, left := if v in counts then cap.left[v.verb := counts[v]] else cap.left)
  }

  lemma MintOneMore(verbs: set<VerbId>, counts: Amounts, expires: nat, v: VerbId)
    ensures var was := Mint(verbs, counts, expires);
            var cap := if v.handler in was then was[v.handler] else Cap({}, map[], expires);
            Mint(verbs + {v}, counts, expires) == was[v.handler := WithVerb(cap, counts, v)]
  {
    hide CapFor;
    var more := verbs + {v};
    assert Families(more) == Families(verbs) + {v.handler} by { assert v in more; }
    forall f
      ensures CapFor(more, counts, expires, f) ==
              if f == v.handler then WithVerb(CapFor(verbs, counts, expires, f), counts, v)
              else CapFor(verbs, counts, expires, f)
      ensures f !in Families(verbs) ==> CapFor(verbs, counts, expires, f) == Cap({}, map[], expires)
    {
      CapOneMore(verbs, counts, expires, v, f);
      NoCapYet(verbs, counts, expires, f);
    }
  }

  lemma CapOneMore(verbs: set<VerbId>, counts: Amounts, expires: nat, v: VerbId, f: Name)
    ensures CapFor(verbs + {v}, counts, expires, f) ==
            if f == v.handler then WithVerb(CapFor(verbs, counts, expires, f), counts, v)
            else CapFor(verbs, counts, expires, f)
  {
    var more := verbs + {v};
    assert v == Leaf(v.handler, v.verb);
    ShortsOneMore(verbs, v, f);
    if v in counts {
      ShortsOneMore(verbs * counts.Keys, v, f);
      assert more * counts.Keys == verbs * counts.Keys + {v};
    } else {
      assert more * counts.Keys == verbs * counts.Keys;
    }
  }

  lemma ShortsOneMore(verbs: set<VerbId>, v: VerbId, f: Name)
    ensures Shorts(verbs + {v}, f) == Shorts(verbs, f) + (if f == v.handler then {v.verb} else {})
  {
    assert v in verbs + {v};
  }

  lemma NoCapYet(verbs: set<VerbId>, counts: Amounts, expires: nat, f: Name)
    ensures f !in Families(verbs) ==> CapFor(verbs, counts, expires, f) == Cap({}, map[], expires)
  {
    if f !in Families(verbs) {
      assert Shorts(verbs, f) == {} && Shorts(verbs * counts.Keys, f) == {};
    }
  }

  // A minted verb starts with exactly its count.
  lemma MintLeft(verbs: set<VerbId>, counts: Amounts, expires: nat, before: seq<Grant>, v: VerbId)
    requires v in verbs && v in counts
    ensures Left(before + [Mint(verbs, counts, expires)], |before|, v) == counts[v]
  {
    assert v == Leaf(v.handler, v.verb);
    assert v.handler in Families(verbs) && v.verb in Shorts(verbs, v.handler);
    assert v in verbs * counts.Keys && v.verb in Shorts(verbs * counts.Keys, v.handler);
    assert (before + [Mint(verbs, counts, expires)])[|before|] == Mint(verbs, counts, expires);
  }

  // Minting covers the verbs it was asked for, and no other.
  lemma MintCovers(verbs: set<VerbId>, counts: Amounts, expires: nat, v: VerbId)
    ensures Covers(Mint(verbs, counts, expires), v) <==> v in verbs
  {
    assert v == Leaf(v.handler, v.verb);
    if v in verbs {
      assert v.handler in Families(verbs) && v.verb in Shorts(verbs, v.handler);
    }
    if Covers(Mint(verbs, counts, expires), v) {
      var u :| u in verbs && u.handler == v.handler && u.verb == v.verb;
      assert u == v;
    }
  }

  // A minted verb is counted exactly when the consent names it, be it performed or read.
  lemma MintCounted(verbs: set<VerbId>, counts: Amounts, expires: nat, v: VerbId)
    requires v in verbs
    ensures var g := Mint(verbs, counts, expires);
            && v.handler in g && g[v.handler].expires == expires
            && (v.verb in g[v.handler].left <==> v in counts)
  {
    assert v.handler in Families(verbs);
    assert v == Leaf(v.handler, v.verb);
    if v in counts {
      assert v in verbs * counts.Keys && v.verb in Shorts(verbs * counts.Keys, v.handler);
    }
  }

  lemma MintAble(verbs: set<VerbId>, counts: Amounts, expires: nat, before: seq<Grant>, v: VerbId, need: nat)
    requires v in verbs && (v in counts ==> need <= counts[v])
    ensures Able(before + [Mint(verbs, counts, expires)], |before|, v, need)
  {
    hide Mint;
    assert (before + [Mint(verbs, counts, expires)])[|before|] == Mint(verbs, counts, expires);
    MintCovers(verbs, counts, expires, v);
    MintCounted(verbs, counts, expires, v);
    if v in counts {
      MintLeft(verbs, counts, expires, before, v);
    }
  }

  // At the calls from `lo` up to, but not including, `hi`, nobody has taken the capabilities of
  // grant `k` away, and it is no later than the consent's issue plus its ttl.
  ghost predicate Timely(cfg: Config, c: Consent, k: nat, lo: nat, hi: nat) {
    forall n: nat, f: Name :: lo <= n < hi ==> cfg.alive(n, k, f) && cfg.clock(n) <= c.Expires()
  }

  // Holdings leave only when their lease is due, so calls strictly before that are timely.
  lemma PromptIsTimely(cfg: Config, c: Consent, k: nat, lo: nat, hi: nat)
    requires forall n: nat, f: Name :: lo <= n < hi && !cfg.alive(n, k, f) ==> cfg.clock(n) >= c.Expires()
    requires forall n: nat :: lo <= n < hi ==> cfg.clock(n) < c.Expires()
    ensures Timely(cfg, c, k, lo, hi)
  {
    forall n: nat, f: Name | lo <= n < hi
      ensures cfg.alive(n, k, f) && cfg.clock(n) <= c.Expires()
    {
      assert cfg.clock(n) < c.Expires();
    }
  }

  lemma MintInTime(cfg: Config, c: Consent, verbs: set<VerbId>, counts: Amounts, before: seq<Grant>, lo: nat, hi: nat)
    requires Timely(cfg, c, |before|, lo, hi)
    ensures InTime(cfg, before + [Mint(verbs, counts, c.Expires())], |before|, lo, hi)
  {
    var g := Mint(verbs, counts, c.Expires());
    var grants := before + [g];
    assert grants[|before|] == g;
    forall n: nat | lo <= n < hi
      ensures Lasting(cfg, n, grants, |before|)
    {
      forall f | f in g
        ensures cfg.alive(n, |before|, f) && cfg.clock(n) <= g[f].expires
      {
        assert g[f].expires == c.Expires();
      }
    }
  }

  // ----- start -----

  // The derived budget must fit the consent, verb by verb.
  method CheckConsent(budget: Amounts, consent: Amounts) returns (short: Option<VerbId>)
    ensures short.None? <==> forall v :: Amount(budget, v) <= Amount(consent, v)
    ensures short.Some? ==> Amount(budget, short.value) > Amount(consent, short.value)
  {
    var todo := budget.Keys;
    while todo != {}
      invariant todo <= budget.Keys
      invariant forall v :: v !in todo ==> Amount(budget, v) <= Amount(consent, v)
      decreases |todo|
    {
      var v :| v in todo;
      if Amount(consent, v) < budget[v] {
        return Some(v);
      }
      todo := todo - {v};
    }
    return None;
  }

  datatype ConsentError = BadMac | ConsentExpired | WrongPlan | StaleNonce

  // The consents consumed so far; `genuine` stands for the check of the code.
  class ConsentBook {
    var used: set<Name>

    constructor ()
      ensures used == {}
    {
      used := {};
    }

    method CheckAndConsume(c: Consent, plan: Name, genuine: bool, now: nat) returns (r: Result<(), ConsentError>)
      modifies this
      ensures r.Ok? <==> genuine && now <= c.Expires() && c.plan == plan && c.nonce !in old(used)
      ensures used == if r.Ok? then old(used) + {c.nonce} else old(used)
      ensures r.Err? ==> r.error == if !genuine then BadMac else if now > c.Expires() then ConsentExpired
                                    else if c.plan != plan then WrongPlan else StaleNonce
    {
      if !genuine {
        return Err(BadMac);
      }
      if now > c.issuedAt + c.ttl {
        return Err(ConsentExpired);
      }
      if c.plan != plan {
        return Err(WrongPlan);
      }
      if c.nonce in used {
        return Err(StaleNonce);
      }
      used := used + {c.nonce};
      return Ok(());
    }
  }

  datatype StartError = NotConsented(why: ConsentError) | Refused(reason: AdmitError) | OverConsent(verb: VerbId)

  ghost predicate Startable(stmts: seq<Stmt>, sch: Schemas, c: Consent) {
    Admissible(stmts, sch) && forall v :: Occ(stmts, v) <= Amount(c.budget, v)
  }

  // A genuine fresh consent is consumed even when the plan is refused afterwards.
  method Start(stmts: seq<Stmt>, plan: Name, sch: Schemas, book: ConsentBook, c: Consent, genuine: bool, now: nat)
    returns (r: Result<Grant, StartError>)
    modifies book
    ensures r.Err? && r.error.NotConsented? <==>
            !genuine || now > c.Expires() || c.plan != plan || c.nonce in old(book.used)
    ensures book.used == if r.Err? && r.error.NotConsented? then old(book.used) else old(book.used) + {c.nonce}
    ensures r.Ok? || r.error.NotConsented? || !Startable(stmts, sch, c)
    ensures r.Ok? ==> Startable(stmts, sch, c) && r.value == Mint(VerbDemand(stmts), c.budget, c.Expires())
    ensures r.Err? && r.error.OverConsent? ==> Occ(stmts, r.error.verb) > Amount(c.budget, r.error.verb)
  {
    hide Admissible, Occ, Steps, Nodes, Mint;
    var consumed := book.CheckAndConsume(c, plan, genuine, now);
    if consumed.Err? {
      return Err(NotConsented(consumed.error));
    }
    var admitted := Admit(stmts, sch);
    if admitted.Err? {
      return Err(Refused(admitted.error));
    }
    var budget := admitted.value.budget;
    var short := CheckConsent(budget, c.budget);
    forall v
      ensures Amount(budget, v) == Occ(stmts, v)
    {
    }
    if short.Some? {
      return Err(OverConsent(short.value));
    }
    var grant := MintFiberCaps(VerbDemand(stmts), c.budget, c.Expires());
    return Ok(grant);
  }

  // The state a run starts in.
  function Initial(grant: Grant, nonce: Name, signals: seq<Signal>): RunState {
    RunState(map[], [], 0, nonce, [grant], [], [], 0, signals, 0, [], [], [])
  }

  function Started(stmts: seq<Stmt>, c: Consent, signals: seq<Signal>): RunState {
    Initial(Mint(VerbDemand(stmts), c.budget, c.Expires()), c.nonce, signals)
  }

  // ----- the guarantee -----

  lemma {:induction false} AdmittedEffects(sch: Schemas, env: Labels, stmts: seq<Stmt>, pc: Label)
    requires LabelPass(sch, env, stmts, pc).Some?
    ensures EffectVerbs(stmts) <= sch.external.Keys
    decreases stmts, 0
  {
    hide LabelStmt;
    if stmts != [] {
      var n := |stmts| - 1;
      AdmittedEffects(sch, env, stmts[..n], pc);
      AdmittedStmtEffects(sch, LabelPass(sch, env, stmts[..n], pc).value, stmts[n], pc);
    }
  }

  lemma {:induction false} AdmittedStmtEffects(sch: Schemas, env: Labels, s: Stmt, pc: Label)
    requires LabelStmt(sch, env, s, pc).Some?
    ensures StmtEffectVerbs(s) <= sch.external.Keys
    decreases s, 0
  {
    hide ExprLabel, ArgsLabel, GuardLabel;
    match s {
      case Let(_, _) =>
      case Effect(_, _) =>
      case If(g, a, b) =>
        var pc2 := pc.Join(GuardLabel(sch, env, g).value);
        AdmittedEffects(sch, env, a, pc2);
        AdmittedEffects(sch, LabelPass(sch, env, a, pc2).value, b, pc2);
      case Foreach(x, list, _, _, body) =>
        var l := ExprLabel(sch, env, list).value;
        AdmittedEffects(sch, env[x := l], body, pc.Join(l));
    }
  }

  // The run of a plan from the state it starts in.
  // A run starts with nothing bound, logged, withheld or asked, under the nonce of its consent, with
  // one grant for exactly the demanded verbs, counted as consented and ending with the consent.
  lemma StartedFresh(stmts: seq<Stmt>, c: Consent, signals: seq<Signal>)
    ensures var st := Started(stmts, c, signals);
            && st.env == map[] && st.modes == [] && st.buffer == [] && st.log == [] && st.withheld == 0
            && st.calls == 0 && st.steps == 0 && st.trace == [] && st.notes == [] && st.asked == []
            && st.nonce == c.nonce && st.signals == signals && |st.grants| == 1
            && (forall v :: Covers(st.grants[0], v) <==> v in VerbDemand(stmts))
            && forall v :: v in VerbDemand(stmts) ==>
                 var cap := st.grants[0][v.handler];
                 && cap.expires == c.issuedAt + c.ttl
                 && (v.verb in cap.left <==> v in c.budget)
                 && (v in c.budget ==> cap.left[v.verb] == c.budget[v])
  {
    hide VerbDemand, Mint;
    var verbs := VerbDemand(stmts);
    forall v
      ensures Covers(Mint(verbs, c.budget, c.Expires()), v) <==> v in verbs
    {
      MintCovers(verbs, c.budget, c.Expires(), v);
    }
    forall v | v in verbs
      ensures var g := Mint(verbs, c.budget, c.Expires());
              && v.handler in g && g[v.handler].expires == c.Expires()
              && (v.verb in g[v.handler].left <==> v in c.budget)
              && (v in c.budget ==> g[v.handler].left[v.verb] == c.budget[v])
    {
      MintCounted(verbs, c.budget, c.Expires(), v);
      if v in c.budget {
        MintLeft(verbs, c.budget, c.Expires(), [], v);
      }
    }
  }

  function RunOf(cfg: Config, stmts: seq<Stmt>, c: Consent, signals: seq<Signal>): Run<()> {
    ExecBlock(cfg, Started(stmts, c, signals), stmts, PUBLIC)
  }

  // What the consent counts of these verbs suffices for performances and reads together.
  ghost predicate Suffices(stmts: seq<Stmt>, c: Consent, verbs: set<VerbId>) {
    forall v :: v in verbs && v in c.budget ==> Occ(stmts, v) + ReadOcc(stmts, v) <= c.budget[v]
  }

  lemma ConsentBacks(cfg: Config, stmts: seq<Stmt>, c: Consent, signals: seq<Signal>, x: Fund)
    requires x.k == 0 && Timely(cfg, c, 0, 0, x.hi) && x.verbs <= VerbDemand(stmts) && Suffices(stmts, c, x.verbs)
    ensures Backed(cfg, x, Started(stmts, c, signals), Needs(stmts))
  {
    hide Mint, Timely, InTime, Able;
    var st := Started(stmts, c, signals);
    assert [] + st.grants == st.grants;
    MintInTime(cfg, c, VerbDemand(stmts), c.budget, [], 0, x.hi);
    forall v | v in x.verbs
      ensures Able(st.grants, 0, v, Needs(stmts)(v))
    {
      MintAble(VerbDemand(stmts), c.budget, c.Expires(), [], v, Needs(stmts)(v));
    }
  }

  // A started plan without escalating loops, while the minted capabilities last through the
  // calls of the run: when the consent suffices for the performed verbs, and perhaps others, the
  // run executes at most S_MAX statements, performs each verb at most as often as consented, is
  // never stopped at an effect or suspended for lack of budget, and every call for one of those
  // verbs passes the gate.
  lemma FundedRun(cfg: Config, stmts: seq<Stmt>, c: Consent, signals: seq<Signal>, verbs: set<VerbId>)
    requires Startable(stmts, cfg.schemas, c) && EscalateFree(stmts)
    requires Timely(cfg, c, 0, 0, RunOf(cfg, stmts, c, signals).st.calls)
    requires EffectVerbs(stmts) <= verbs <= VerbDemand(stmts) && Suffices(stmts, c, verbs)
    ensures var r := RunOf(cfg, stmts, c, signals);
            && NeverShort(r)
            && r.st.steps <= S_MAX
            && (forall v :: CountOf(r.st.trace, v) <= Amount(c.budget, v))
            && forall i :: 0 <= i < |r.st.asked| && r.st.asked[i].verb in verbs ==> r.st.asked[i].reply.Passed?
  {
    hide Mint, ExecList, Steps, Nodes, NestedOk, EscalateFree, Backed, Timely, Costs, Suffices;
    var st := Started(stmts, c, signals);
    var r := RunOf(cfg, stmts, c, signals);
    var x := Fund(0, verbs, r.st.calls);
    ConsentBacks(cfg, stmts, c, signals, x);
    ListPaid(cfg, x, st, stmts, PUBLIC, |stmts|);
    RunWithinBounds(cfg, st, stmts, PUBLIC);
    forall v
      ensures CountOf(r.st.trace, v) <= Amount(c.budget, v)
    {
      assert CountOf(r.st.trace, v) <= Occ(stmts, v);
    }
  }

  // With a consent that suffices for every demanded verb it counts, reads included, no call for a
  // demanded verb is refused.
  lemma AdmittedRun(cfg: Config, stmts: seq<Stmt>, c: Consent, signals: seq<Signal>)
    requires Startable(stmts, cfg.schemas, c) && EscalateFree(stmts)
    requires Timely(cfg, c, 0, 0, RunOf(cfg, stmts, c, signals).st.calls) && Suffices(stmts, c, VerbDemand(stmts))
    ensures var r := RunOf(cfg, stmts, c, signals);
            && NeverShort(r)
            && r.st.steps <= S_MAX
            && (forall v :: CountOf(r.st.trace, v) <= Amount(c.budget, v))
            && forall i :: 0 <= i < |r.st.asked| && r.st.asked[i].verb in VerbDemand(stmts) ==>
                 r.st.asked[i].reply.Passed?
  {
    hide Startable, EscalateFree, Timely, Suffices, RunOf, NeverShort;
    EffectsDemanded(stmts);
    FundedRun(cfg, stmts, c, signals, VerbDemand(stmts));
  }

  lemma {:induction false} OccMentions(stmts: seq<Stmt>, v: VerbId)
    requires Occ(stmts, v) > 0
    ensures v in EffectVerbs(stmts)
    decreases stmts, 0
  {
    if stmts != [] {
      if Occ(stmts[..|stmts| - 1], v) > 0 {
        OccMentions(stmts[..|stmts| - 1], v);
      } else {
        StmtOccMentions(stmts[|stmts| - 1], v);
      }
    }
  }

  lemma {:induction false} StmtOccMentions(s: Stmt, v: VerbId)
    requires StmtOcc(s, v) > 0
    ensures v in StmtEffectVerbs(s)
    decreases s, 0
  {
    match s {
      case Let(_, _) =>
      case Effect(_, _) =>
      case If(_, a, b) =>
        if Occ(a, v) > 0 {
          OccMentions(a, v);
        } else {
          OccMentions(b, v);
        }
      case Foreach(_, _, bound, _, body) =>
        if Occ(body, v) > 0 {
          OccMentions(body, v);
        }
    }
  }

  // ----- a system that keeps reads and effects apart -----

  predicate ReadVerb(sch: Schemas, v: VerbId) {
    v in sch.observe || v == COMPUTE
  }

  // No verb is both performed and read.
  predicate Separate(sch: Schemas) {
    forall v :: v in sch.external ==> !ReadVerb(sch, v)
  }

  lemma {:induction false} ExprReadsObserved(sch: Schemas, env: Labels, e: Expr, v: VerbId)
    requires ExprLabel(sch, env, e).Ok? && !ReadVerb(sch, v)
    ensures ExprReads(e, v) == 0
    decreases e, 0
  {
    match e {
      case Observe(verb, args) => ArgsReadsObserved(sch, env, args, sch.observe[verb], v);
      case Pure(_, args) => ArgsReadsObserved(sch, env, args, PUBLIC, v);
      case Const(_) =>
      case Var(_) =>
      case Index(base, _) => ExprReadsObserved(sch, env, base, v);
    }
  }

  lemma {:induction false} ArgsReadsObserved(sch: Schemas, env: Labels, args: seq<Expr>, base: Label, v: VerbId)
    requires ArgsLabel(sch, env, args, base).Ok? && !ReadVerb(sch, v)
    ensures ArgsReads(args, v) == 0
    decreases args, 0
  {
    if args != [] {
      ArgsReadsObserved(sch, env, args[..|args| - 1], base, v);
      ExprReadsObserved(sch, env, args[|args| - 1], v);
    }
  }

  lemma {:induction false} GuardReadsObserved(sch: Schemas, env: Labels, g: Guard, v: VerbId)
    requires GuardLabel(sch, env, g).Ok? && !ReadVerb(sch, v)
    ensures GuardReads(g, v) == 0
    decreases g
  {
    match g {
      case Exists(e) => ExprReadsObserved(sch, env, e, v);
      case Matches(e, _) => ExprReadsObserved(sch, env, e, v);
      case Cmp(a, _, b) =>
        ExprReadsObserved(sch, env, a, v);
        ExprReadsObserved(sch, env, b, v);
      case And(l, r) =>
        GuardReadsObserved(sch, env, l, v);
        GuardReadsObserved(sch, env, r, v);
      case Or(l, r) =>
        GuardReadsObserved(sch, env, l, v);
        GuardReadsObserved(sch, env, r, v);
      case Not(h) => GuardReadsObserved(sch, env, h, v);
    }
  }

  // An admitted plan reads only what its system declares readable.
  lemma {:induction false} ReadsObserved(sch: Schemas, env: Labels, stmts: seq<Stmt>, pc: Label, v: VerbId)
    requires LabelPass(sch, env, stmts, pc).Some? && !ReadVerb(sch, v)
    ensures ReadOcc(stmts, v) == 0
    decreases stmts, 0
  {
    hide LabelStmt, ReadVerb;
    if stmts != [] {
      var n := |stmts| - 1;
      ReadsObserved(sch, env, stmts[..n], pc, v);
      StmtReadsObserved(sch, LabelPass(sch, env, stmts[..n], pc).value, stmts[n], pc, v);
    }
  }

  lemma {:induction false} StmtReadsObserved(sch: Schemas, env: Labels, s: Stmt, pc: Label, v: VerbId)
    requires LabelStmt(sch, env, s, pc).Some? && !ReadVerb(sch, v)
    ensures StmtReadOcc(s, v) == 0
    decreases s, 0
  {
    hide ExprLabel, ArgsLabel, GuardLabel, ReadVerb;
    match s {
      case Let(_, e) => ExprReadsObserved(sch, env, e, v);
      case Effect(_, args) => ArgsReadsObserved(sch, env, args, pc, v);
      case If(g, a, b) =>
        var pc2 := pc.Join(GuardLabel(sch, env, g).value);
        GuardReadsObserved(sch, env, g, v);
        ReadsObserved(sch, env, a, pc2, v);
        ReadsObserved(sch, LabelPass(sch, env, a, pc2).value, b, pc2, v);
      case Foreach(x, list, bound, _, body) =>
        var l := ExprLabel(sch, env, list).value;
        ExprReadsObserved(sch, env, list, v);
        ReadsObserved(sch, env[x := l], body, pc.Join(l), v);
    }
  }

  // Where reads and effects are kept apart, the consent suffices for every demanded verb exactly
  // when what it counts of the read ones covers their reads.
  lemma SeparateSuffices(stmts: seq<Stmt>, sch: Schemas, c: Consent)
    requires Startable(stmts, sch, c) && Separate(sch)
    ensures Suffices(stmts, c, EffectVerbs(stmts))
    ensures Suffices(stmts, c, VerbDemand(stmts)) <==>
            forall v :: v in VerbDemand(stmts) && v in c.budget && ReadVerb(sch, v) ==> ReadOcc(stmts, v) <= c.budget[v]
  {
    hide Steps, Nodes, NestedOk, ReadVerb, Occ, ReadOcc;
    AdmittedEffects(sch, map[], stmts, PUBLIC);
    forall v
      ensures v !in sch.external ==> Occ(stmts, v) == 0
      ensures !ReadVerb(sch, v) ==> ReadOcc(stmts, v) == 0
      ensures v in c.budget ==> Occ(stmts, v) <= c.budget[v]
      ensures ReadVerb(sch, v) ==> v !in sch.external
    {
      assert Occ(stmts, v) <= Amount(c.budget, v);
      if v !in sch.external && Occ(stmts, v) > 0 {
        OccMentions(stmts, v);
      }
      if !ReadVerb(sch, v) {
        ReadsObserved(sch, map[], stmts, PUBLIC, v);
      }
    }
  }

  // There the consent check at the start is enough for the effects; for the reads it is when the
  // consent counts no readable verb.
  lemma SeparateRun(cfg: Config, stmts: seq<Stmt>, c: Consent, signals: seq<Signal>)
    requires Startable(stmts, cfg.schemas, c) && EscalateFree(stmts) && Separate(cfg.schemas)
    requires Timely(cfg, c, 0, 0, RunOf(cfg, stmts, c, signals).st.calls)
    ensures var r := RunOf(cfg, stmts, c, signals);
            && NeverShort(r)
            && ((forall v :: v in c.budget ==> !ReadVerb(cfg.schemas, v)) ==>
                  forall i :: 0 <= i < |r.st.asked| && r.st.asked[i].verb in VerbDemand(stmts) ==>
                    r.st.asked[i].reply.Passed?)
  {
    hide Startable, EscalateFree, Timely, Suffices, RunOf, ReadVerb, Separate, NeverShort;
    EffectsDemanded(stmts);
    SeparateSuffices(stmts, cfg.schemas, c);
    FundedRun(cfg, stmts, c, signals, EffectVerbs(stmts));
    if forall v :: v in c.budget ==> !ReadVerb(cfg.schemas, v) {
      AdmittedRun(cfg, stmts, c, signals);
    }
  }
}
