// What running a plan means: statements over an environment of labelled values, against
// arbitrary answers of the world.

module PlanSemantics {
  import opened Prelude
  import opened PlanShapes
  import opened PlanIr
  import opened PlanCheck

  datatype Tagged = Tagged(value: Value, taint: Label)
  type Env = map<Name, Tagged>

  // ----- consent and capabilities: one grant per minting, one capability per family -----

  datatype Consent = Consent(plan: Name, budget: Amounts, nonce: Name, issuedAt: nat, ttl: nat) {
    function Expires(): nat { issuedAt + ttl }
  }

  // A verb without an entry in `left` is uncounted; `expires` is also the lease of the holding.
  datatype Cap = Cap(verbs: set<Name>, left: map<Name, nat>, expires: nat)
  type Grant = map<Name, Cap>

  predicate Covers(g: Grant, v: VerbId) {
    v.handler in g && v.verb in g[v.handler].verbs
  }

  function Families(verbs: set<VerbId>): set<Name> {
    set v | v in verbs :: v.handler
  }

  function Shorts(verbs: set<VerbId>, family: Name): set<Name> {
    set v | v in verbs && v.handler == family :: v.verb
  }

  function CapFor(verbs: set<VerbId>, counts: Amounts, expires: nat, f: Name): Cap {
    Cap(Shorts(verbs, f), map s | s in Shorts(verbs * counts.Keys, f) :: Amount(counts, Leaf(f, s)), expires)
  }

  // Capabilities for `verbs`, grouped by family, counted where `counts` has an entry.
  function Mint(verbs: set<VerbId>, counts: Amounts, expires: nat): Grant {
    map f | f in Families(verbs) :: CapFor(verbs, counts, expires, f)
  }

  function Only(g: Grant, families: set<Name>): Grant {
    map f | f in g && f in families :: g[f]
  }

  // ----- configuration and state -----

  datatype Answer = Returned(value: Value) | Broke

  // Everything a run does not decide itself, call by call: the answers of the world, the time,
  // whether the holding of a capability (grant number, family) is still active, and whether
  // the next buffer write succeeds.
  datatype Config = Config(
    schemas: Schemas,
    withhold: (VerbId, Value) -> bool,
    target: (VerbId, Value) -> Name,
    world: (nat, VerbId, Value) -> Answer,
    matches: (string, string) -> Option<bool>,
    clock: nat -> nat,
    alive: (nat, nat, Name) -> bool,
    stored: nat -> bool)

  // A resume whose minting fails leaves the families in `partial` behind.
  datatype Signal = Resume(consent: Consent, partial: Option<set<Name>>) | Abort(expired: bool)

  datatype Stop =
    | BoundExceeded(bound: nat, actual: nat)
    | SinkRefused(verb: VerbId)
    | OutOfBudget(verb: VerbId)
    | CallFailed(verb: VerbId)
    | BufferFailed(verb: VerbId)
    | NoSuchVerb(verb: VerbId)
    | NoSuchVar(name: Name)
    | BadRegex
    | MintFailed

  datatype Outcome = FailStop(at: Stop) | Truncated(dropped: nat) | Aborted(expired: bool)

  datatype Buffered = Buffered(num: nat, verb: VerbId, target: Name, args: Value, cost: nat)
  datatype Emission = Emission(num: nat, verb: VerbId, target: Name, nonce: Name)

  // What is noted of a performed effect and of a call.
  datatype Note = Note(effective: Label, held: bool)
  datatype Reply = Passed | Missing | Exhausted | Lapsed
  datatype Asked = Asked(verb: VerbId, reply: Reply)

  // The last four fields observe the run: statements executed, effects in program order with
  // their notes, and calls.
  datatype RunState = RunState(
    env: Env, modes: seq<Mode>, withheld: nat, nonce: Name, grants: seq<Grant>,
    buffer: seq<Buffered>, log: seq<Emission>, calls: nat, signals: seq<Signal>,
    steps: nat, trace: Path, notes: seq<Note>, asked: seq<Asked>)

  datatype Run<T> = Run(st: RunState, res: Result<T, Outcome>)

  function CurrentMode(st: RunState): Mode {
    if st.modes == [] then Strict else st.modes[|st.modes| - 1]
  }

  // ----- the capability gate -----

  datatype Gate = Open(grants: seq<Grant>) | NoCapability | BudgetExhausted | Expired

  // Live capabilities for the verb at call `n`; only the holding decides liveness.
  predicate Candidate(cfg: Config, n: nat, grants: seq<Grant>, k: nat, v: VerbId) {
    k < |grants| && Covers(grants[k], v) && cfg.alive(n, k, v.handler)
  }

  function Spend(g: Grant, v: VerbId): Grant
    requires Covers(g, v) && v.verb in g[v.handler].left && g[v.handler].left[v.verb] > 0
  {
    var cap := g[v.handler];
    g[v.handler := cap.(left := cap.left[v.verb := cap.left[v.verb] - 1])]
  }

  // The first candidate that exercises cleanly wins; the others leave their reason behind.
  function Exercise(cfg: Config, n: nat, grants: seq<Grant>, v: VerbId, i: nat, last: Gate): Gate
    requires i <= |grants|
    decreases |grants| - i
  {
    if i == |grants| then last
    else if !Candidate(cfg, n, grants, i, v) then Exercise(cfg, n, grants, v, i + 1, last)
    else
      var cap := grants[i][v.handler];
      if cfg.clock(n) > cap.expires then Exercise(cfg, n, grants, v, i + 1, Expired)
      else if v.verb !in cap.left then Open(grants)
      else if cap.left[v.verb] > 0 then Open(grants[i := Spend(grants[i], v)])
      else Exercise(cfg, n, grants, v, i + 1, BudgetExhausted)
  }

  function Gated(cfg: Config, st: RunState, v: VerbId): Gate {
    Exercise(cfg, st.calls, st.grants, v, 0, NoCapability)
  }

  // ----- calls -----

  datatype CallResult = Got(value: Value) | GateRefused | CallBroke

  function InvokeState(cfg: Config, st: RunState, v: VerbId): RunState {
    var gate := Gated(cfg, st, v);
    st.(grants := if gate.Open? then gate.grants else st.grants,
        calls := st.calls + 1,
        asked := st.asked + [Asked(v, ReplyOf(gate))])
  }

  function ReplyOf(gate: Gate): Reply {
    match gate
    case Open(_) => Passed
    case NoCapability => Missing
    case BudgetExhausted => Exhausted
    case Expired => Lapsed
  }

  // An expired capability is an error like any other, not a lack of budget.
  function Invoke(cfg: Config, st: RunState, v: VerbId, arg: Value): CallResult {
    match Gated(cfg, st, v)
    case Open(_) => (match cfg.world(st.calls, v, arg) case Returned(x) => Got(x) case Broke => CallBroke)
    case Expired => CallBroke
    case _ => GateRefused
  }

  // A read: any failure stops the run.
  function Read(cfg: Config, st: RunState, v: VerbId, arg: Value, taint: Label): Run<Tagged> {
    Run(InvokeState(cfg, st, v),
        match Invoke(cfg, st, v, arg)
        case Got(x) => Ok(Tagged(x, taint))
        case _ => Err(FailStop(CallFailed(v))))
  }

  // ----- expressions and guards -----

  datatype Args = Args(vals: seq<Value>, taint: Label)

  // A single argument travels bare, several as a list.
  function ReadArg(vals: seq<Value>): Value {
    if |vals| == 1 then vals[0] else List(vals)
  }

  function EffectArg(vals: seq<Value>): Value {
    if |vals| == 1 && vals[0].Object? then vals[0] else List(vals)
  }

  function Eval(cfg: Config, st: RunState, e: Expr): Run<Tagged>
    decreases e, 0
  {
    match e
    case Observe(verb, args) =>
      if verb !in cfg.schemas.observe then Run(st, Err(FailStop(NoSuchVerb(verb))))
      else
        var a := EvalArgs(cfg, st, args, cfg.schemas.observe[verb]);
        (match a.res
         case Err(o) => Run(a.st, Err(o))
         case Ok(x) => Read(cfg, a.st, verb, ReadArg(x.vals), x.taint))
    case Pure(func, args) =>
      var a := EvalArgs(cfg, st, args, PUBLIC);
      (match a.res
       case Err(o) => Run(a.st, Err(o))
       case Ok(x) => Read(cfg, a.st, COMPUTE, Object([("func", Text(func)), ("args", List(x.vals))]), x.taint))
    case Const(v) => Run(st, Ok(Tagged(v, PUBLIC)))
    case Var(x) => Run(st, if x in st.env then Ok(st.env[x]) else Err(FailStop(NoSuchVar(x))))
    case Index(base, i) =>
      var b := Eval(cfg, st, base);
      Run(b.st, match b.res case Err(o) => Err(o) case Ok(t) => Ok(Tagged(t.value.At(i), t.taint)))
  }

  function EvalArgs(cfg: Config, st: RunState, args: seq<Expr>, base: Label): Run<Args>
    decreases args, 0
  {
    if args == [] then Run(st, Ok(Args([], base)))
    else
      var a := EvalArgs(cfg, st, args[..|args| - 1], base);
      match a.res
      case Err(o) => a
      case Ok(x) =>
        var b := Eval(cfg, a.st, args[|args| - 1]);
        Run(b.st, match b.res
                  case Err(o) => Err(o)
                  case Ok(t) => Ok(Args(x.vals + [t.value], x.taint.Join(t.taint))))
  }

  datatype Verdict = Verdict(holds: bool, taint: Label)

  function EvalGuard(cfg: Config, st: RunState, g: Guard): Run<Verdict>
    decreases g, 1
  {
    match g
    case Exists(e) =>
      var a := Eval(cfg, st, e);
      Run(a.st, match a.res case Err(o) => Err(o) case Ok(t) => Ok(Verdict(t.value.Present(), t.taint)))
    case Matches(e, regex) =>
      var a := Eval(cfg, st, e);
      Run(a.st, match a.res case Err(o) => Err(o) case Ok(t) => Match(cfg, t, regex))
    case Cmp(lhs, op, rhs) =>
      var a := Eval(cfg, st, lhs);
      (match a.res
       case Err(o) => Run(a.st, Err(o))
       case Ok(x) =>
         var b := Eval(cfg, a.st, rhs);
         Run(b.st, match b.res
                   case Err(o) => Err(o)
                   case Ok(y) => Ok(Verdict(op.Holds(CmpValues(x.value, y.value)), x.taint.Join(y.taint)))))
    case And(_, _) => Pair(cfg, st, g)
    case Or(_, _) => Pair(cfg, st, g)
    case Not(h) =>
      var a := EvalGuard(cfg, st, h);
      Run(a.st, match a.res case Err(o) => Err(o) case Ok(v) => Ok(Verdict(!v.holds, v.taint)))
  }

  // Both sides are always evaluated.
  function Pair(cfg: Config, st: RunState, g: Guard): Run<Verdict>
    requires g.And? || g.Or?
    decreases g, 0
  {
    var a := EvalGuard(cfg, st, g.l);
    match a.res
    case Err(o) => a
    case Ok(x) =>
      var b := EvalGuard(cfg, a.st, g.r);
      Run(b.st, match b.res
                case Err(o) => Err(o)
                case Ok(y) =>
                  Ok(Verdict(if g.And? then x.holds && y.holds else x.holds || y.holds, x.taint.Join(y.taint))))
  }

  function Match(cfg: Config, t: Tagged, regex: string): Result<Verdict, Outcome> {
    match cfg.matches(regex, if t.value.Text? then t.value.s else "")
    case None => Err(FailStop(BadRegex))
    case Some(m) => Ok(Verdict(t.value.Text? && m, t.taint))
  }

  // ----- suspension -----

  // Parked until a signal arrives; a run nobody resumes expires.
  function Park(st: RunState): Run<()> {
    if st.signals == [] then Run(st, Err(Aborted(true)))
    else
      var rest := st.(signals := st.signals[1..]);
      match st.signals[0]
      case Abort(expired) => Run(rest, Err(Aborted(expired)))
      case Resume(consent, partial) =>
        var minted := Mint(consent.budget.Keys, consent.budget, consent.Expires());
        match partial
        case Some(families) => Run(rest.(grants := rest.grants + [Only(minted, families)]), Err(FailStop(MintFailed)))
        case None => Run(rest.(grants := rest.grants + [minted], nonce := consent.nonce), Ok(()))
  }

  // ----- effects -----

  function NextNum(buffer: seq<Buffered>): nat {
    if buffer == [] then 1
    else
      var n := NextNum(buffer[..|buffer| - 1]);
      var last := buffer[|buffer| - 1].num;
      if last + 1 > n then last + 1 else n
  }

  function Withheld(st: RunState, v: VerbId, target: Name, arg: Value, effective: Label): RunState {
    st.(buffer := st.buffer + [Buffered(NextNum(st.buffer), v, target, arg, 1)],
        withheld := st.withheld + 1, trace := st.trace + [v], notes := st.notes + [Note(effective, true)])
  }

  function Logged(st: RunState, v: VerbId, target: Name, effective: Label): RunState {
    st.(log := st.log + [Emission(|st.log| + 1, v, target, st.nonce)],
        trace := st.trace + [v], notes := st.notes + [Note(effective, false)])
  }

  // The budget gate and the call; an escalating loop retries after every resume.
  function Emit(cfg: Config, st: RunState, v: VerbId, target: Name, arg: Value, effective: Label,
                remaining: nat): Run<()>
    decreases |st.signals|
  {
    var after := InvokeState(cfg, st, v);
    match Invoke(cfg, st, v, arg)
    case Got(_) => Run(Logged(after, v, target, effective), Ok(()))
    case CallBroke => Run(after, Err(FailStop(CallFailed(v))))
    case GateRefused =>
      match CurrentMode(st)
      case Strict => Run(after, Err(FailStop(OutOfBudget(v))))
      case Truncate => Run(after, Err(Truncated(remaining)))
      case Escalate =>
        var p := Park(after);
        match p.res
        case Err(o) => p
        case Ok(_) => Emit(cfg, p.st, v, target, arg, effective, remaining)
  }

  // Unlisted effects count as external.
  predicate External(sch: Schemas, v: VerbId) {
    v !in sch.external || sch.external[v]
  }

  function Withhold(cfg: Config, st: RunState, v: VerbId, arg: Value, effective: Label): Run<()> {
    if cfg.stored(|st.buffer|) then Run(Withheld(st, v, cfg.target(v, arg), arg, effective), Ok(()))
    else Run(st, Err(FailStop(BufferFailed(v))))
  }

  function ExecEffect(cfg: Config, st: RunState, v: VerbId, args: seq<Expr>, pc: Label, remaining: nat): Run<()> {
    var a := EvalArgs(cfg, st, args, pc);
    match a.res
    case Err(o) => Run(a.st, Err(o))
    case Ok(x) =>
      var arg := EffectArg(x.vals);
      if External(cfg.schemas, v) && x.taint.conf != {} then Run(a.st, Err(FailStop(SinkRefused(v))))
      else if cfg.withhold(v, arg) then Withhold(cfg, a.st, v, arg, x.taint)
      else Emit(cfg, a.st, v, cfg.target(v, arg), arg, x.taint, remaining)
  }

  // ----- statements -----

  // `total` is the length of the enclosing list, for the report of a truncation.
  function ExecList(cfg: Config, st: RunState, stmts: seq<Stmt>, pc: Label, total: nat): Run<()>
    requires |stmts| <= total
    decreases stmts, 0
  {
    if stmts == [] then Run(st, Ok(()))
    else
      var n := |stmts| - 1;
      var front := ExecList(cfg, st, stmts[..n], pc, total);
      match front.res
      case Err(_) => front
      case Ok(_) => ExecStmt(cfg, front.st, stmts[n], pc, total - n)
  }

  function ExecBlock(cfg: Config, st: RunState, stmts: seq<Stmt>, pc: Label): Run<()>
    decreases stmts, 1
  {
    ExecList(cfg, st, stmts, pc, |stmts|)
  }

  function ExecStmt(cfg: Config, st: RunState, s: Stmt, pc: Label, remaining: nat): Run<()>
    decreases s, 0
  {
    var st := st.(steps := st.steps + 1);
    match s
    case Let(x, e) =>
      var a := Eval(cfg, st, e);
      (match a.res case Err(o) => Run(a.st, Err(o)) case Ok(t) => Run(a.st.(env := a.st.env[x := t]), Ok(())))
    case Effect(verb, args) => ExecEffect(cfg, st, verb, args, pc, remaining)
    case If(g, a, b) =>
      var v := EvalGuard(cfg, st, g);
      (match v.res
       case Err(o) => Run(v.st, Err(o))
       case Ok(x) => ExecBlock(cfg, v.st, if x.holds then a else b, pc.Join(x.taint)))
    case Foreach(x, list, bound, mode, body) =>
      var l := Eval(cfg, st, list);
      match l.res
      case Err(o) => Run(l.st, Err(o))
      case Ok(t) =>
        var items := t.value.Items();
        var admitted := Admitted(l.st, |items|, bound, mode);
        match admitted.res
        case Err(o) => Run(admitted.st, Err(o))
        case Ok(take) =>
          var inner := admitted.st.(modes := admitted.st.modes + [mode]);
          var r := ExecItems(cfg, inner, x, items[..take], t.taint, body, pc.Join(t.taint));
          Run(r.st.(modes := PopMode(r.st.modes)), r.res)
  }

  // How many items a loop takes; an escalating overrun waits for consent and takes all.
  function Admitted(st: RunState, n: nat, bound: nat, mode: Mode): (r: Run<nat>)
    ensures r.res.Ok? ==> r.res.value <= n
  {
    if n <= bound then Run(st, Ok(n))
    else
      match mode
      case Strict => Run(st, Err(FailStop(BoundExceeded(bound, n))))
      case Truncate => Run(st, Ok(bound))
      case Escalate => var p := Park(st); Run(p.st, match p.res case Err(o) => Err(o) case Ok(_) => Ok(n))
  }

  function PopMode(modes: seq<Mode>): seq<Mode> {
    if modes == [] then [] else modes[..|modes| - 1]
  }

  function ExecItems(cfg: Config, st: RunState, x: Name, items: seq<Value>, taint: Label,
                     body: seq<Stmt>, pc: Label): Run<()>
    decreases body, |items| + 2
  {
    if items == [] then Run(st, Ok(()))
    else
      var n := |items| - 1;
      var front := ExecItems(cfg, st, x, items[..n], taint, body, pc);
      match front.res
      case Err(_) => front
      case Ok(_) => ExecBlock(cfg, front.st.(env := front.st.env[x := Tagged(items[n], taint)]), body, pc)
  }
}
