// An abstract machine for plans: one instruction at a time over a stack of tagged values, with
// every rule written out. It ends exactly where the meaning of the plan says.

module PlanMachine {
  import opened Prelude
  import opened PlanShapes
  import opened PlanIr
  import opened PlanCheck
  import opened PlanSemantics

  // Verdicts of guards travel on the stack as flags.
  datatype Instr =
    | PushExpr(e: Expr) | Pick(i: nat) | Ask(verb: VerbId, n: nat, base: Label) | Compute(func: Name, n: nat)
    | PushGuard(g: Guard) | IsThere | Like(regex: string) | Compare(op: CmpOp) | Both | Either | Negate
    | Exec(s: Stmt, pc: Label, remaining: nat) | Bind(x: Name) | Put(x: Name, t: Tagged)
    | Perform(verb: VerbId, n: nat, pc: Label, remaining: nat)
    | Offer(verb: VerbId, arg: Value, low: Label, remaining: nat)
    | Choose(yes: seq<Stmt>, no: seq<Stmt>, pc: Label)
    | Enter(x: Name, bound: nat, mode: Mode, body: seq<Stmt>, pc: Label) | Leave

  datatype Code = End | Then(first: Instr, rest: Code)

  // A stopped machine has left all loops.
  datatype Machine = Going(st: RunState, code: Code, vs: seq<Tagged>) | Stopped(st: RunState, why: Outcome)

  function Halt(st: RunState, why: Outcome): Machine {
    Stopped(st.(modes := []), why)
  }

  // ----- code for lists -----

  function PushAll(args: seq<Expr>, k: Code): Code {
    if args == [] then k else PushAll(args[..|args| - 1], Then(PushExpr(args[|args| - 1]), k))
  }

  // Each statement knows how many of its list are left, itself included.
  function Block(stmts: seq<Stmt>, pc: Label, total: nat, k: Code): Code
    requires |stmts| <= total
  {
    if stmts == [] then k
    else
      var n := |stmts| - 1;
      Block(stmts[..n], pc, total, Then(Exec(stmts[n], pc, total - n), k))
  }

  function Rounds(x: Name, items: seq<Value>, taint: Label, body: seq<Stmt>, pc: Label, k: Code): Code {
    if items == [] then k
    else
      var n := |items| - 1;
      Rounds(x, items[..n], taint, body, pc, Then(Put(x, Tagged(items[n], taint)), Block(body, pc, |body|, k)))
  }

  // ----- the rules -----

  function Union(a: Label, b: Label): Label {
    Label(a.conf + b.conf, a.integ + b.integ)
  }

  function Values(ts: seq<Tagged>): seq<Value> {
    seq(|ts|, i requires 0 <= i < |ts| => ts[i].value)
  }

  function Taints(base: Label, ts: seq<Tagged>): Label {
    if ts == [] then base else Union(Taints(base, ts[..|ts| - 1]), ts[|ts| - 1].taint)
  }

  function Push(st: RunState, k: Code, vs: seq<Tagged>, t: Tagged): Machine {
    Going(st, k, vs + [t])
  }

  function Expand(cfg: Config, st: RunState, e: Expr, k: Code, vs: seq<Tagged>): Machine {
    match e
    case Const(v) => Push(st, k, vs, Tagged(v, Label({}, {})))
    case Var(x) => if x in st.env then Push(st, k, vs, st.env[x]) else Halt(st, FailStop(NoSuchVar(x)))
    case Index(base, i) => Going(st, Then(PushExpr(base), Then(Pick(i), k)), vs)
    case Observe(v, args) =>
      if v in cfg.schemas.observe then
        Going(st, PushAll(args, Then(Ask(v, |args|, cfg.schemas.observe[v]), k)), vs)
      else Halt(st, FailStop(NoSuchVerb(v)))
    case Pure(func, args) => Going(st, PushAll(args, Then(Compute(func, |args|), k)), vs)
  }

  function ExpandGuard(st: RunState, g: Guard, k: Code, vs: seq<Tagged>): Machine {
    match g
    case Exists(e) => Going(st, Then(PushExpr(e), Then(IsThere, k)), vs)
    case Matches(e, regex) => Going(st, Then(PushExpr(e), Then(Like(regex), k)), vs)
    case Cmp(a, op, b) => Going(st, Then(PushExpr(a), Then(PushExpr(b), Then(Compare(op), k))), vs)
    case And(a, b) => Going(st, Then(PushGuard(a), Then(PushGuard(b), Then(Both, k))), vs)
    case Or(a, b) => Going(st, Then(PushGuard(a), Then(PushGuard(b), Then(Either, k))), vs)
    case Not(h) => Going(st, Then(PushGuard(h), Then(Negate, k)), vs)
  }

  function ExpandStmt(st: RunState, s: Stmt, pc: Label, remaining: nat, k: Code, vs: seq<Tagged>): Machine {
    match s
    case Let(x, e) => Going(st, Then(PushExpr(e), Then(Bind(x), k)), vs)
    case Effect(v, args) => Going(st, PushAll(args, Then(Perform(v, |args|, pc, remaining), k)), vs)
    case If(g, a, b) => Going(st, Then(PushGuard(g), Then(Choose(a, b, pc), k)), vs)
    case Foreach(x, list, bound, mode, body) =>
      Going(st, Then(PushExpr(list), Then(Enter(x, bound, mode, body, pc), k)), vs)
  }

  // An empty list or nothing at all is not there; everything else is, false and zero included.
  predicate There(v: Value) {
    v != Null && v != List([])
  }

  function PickFrom(v: Value, i: nat): Value {
    match v
    case List(items) => if i < |items| then items[i] else Null
    case _ => Null
  }

  function Combined(i: Instr, x: Tagged, y: Tagged): Option<bool> {
    match (i, x.value, y.value)
    case (Both, Flag(a), Flag(b)) => Some(a && b)
    case (Either, Flag(a), Flag(b)) => Some(a || b)
    case (Compare(op), a, b) => Some(op.Holds(CmpValues(a, b)))
    case _ => None
  }

  // What the gate does to the state, and what it says.
  function Asking(cfg: Config, st: RunState, v: VerbId): (RunState, Gate) {
    var gate := Exercise(cfg, st.calls, st.grants, v, 0, NoCapability);
    var reply := match gate
                 case Open(_) => Passed
                 case NoCapability => Missing
                 case BudgetExhausted => Exhausted
                 case Expired => Lapsed;
    var asked := st.(calls := st.calls + 1, asked := st.asked + [Asked(v, reply)]);
    (if gate.Open? then asked.(grants := gate.grants) else asked, gate)
  }

  // Reads: whatever goes wrong stops the run.
  function Call(cfg: Config, st: RunState, v: VerbId, arg: Value, taint: Label, k: Code, vs: seq<Tagged>): Machine {
    var (asked, gate) := Asking(cfg, st, v);
    if gate.Open? && cfg.world(st.calls, v, arg).Returned? then
      Push(asked, k, vs, Tagged(cfg.world(st.calls, v, arg).value, taint))
    else Halt(asked, FailStop(CallFailed(v)))
  }

  // Effects: a refused gate is settled by the innermost loop.
  function Settle(cfg: Config, st: RunState, i: Instr, k: Code, vs: seq<Tagged>): Machine
    requires i.Offer?
  {
    var (asked, gate) := Asking(cfg, st, i.verb);
    if gate.Open? && cfg.world(st.calls, i.verb, i.arg).Returned? then
      Going(asked.(log := asked.log + [Emission(|asked.log| + 1, i.verb, cfg.target(i.verb, i.arg), asked.nonce)],
                   trace := asked.trace + [i.verb], notes := asked.notes + [Note(i.low, false)]), k, vs)
    else if gate.Open? || gate.Expired? then Halt(asked, FailStop(CallFailed(i.verb)))
    else if st.modes == [] || st.modes[|st.modes| - 1] == Strict then Halt(asked, FailStop(OutOfBudget(i.verb)))
    else if st.modes[|st.modes| - 1] == Truncate then Halt(asked, Truncated(i.remaining))
    else Wait(asked, Then(i, k), vs)
  }

  // A parked machine goes on under a new consent, or stops.
  function Wait(st: RunState, k: Code, vs: seq<Tagged>): Machine {
    if st.signals == [] then Halt(st, Aborted(true))
    else
      var rest := st.(signals := st.signals[1..]);
      match st.signals[0]
      case Abort(expired) => Halt(rest, Aborted(expired))
      case Resume(c, partial) =>
        var minted := Mint(c.budget.Keys, c.budget, c.issuedAt + c.ttl);
        match partial
        case None => Going(rest.(grants := rest.grants + [minted], nonce := c.nonce), k, vs)
        case Some(fs) =>
          Halt(rest.(grants := rest.grants + [map f | f in minted && f in fs :: minted[f]]), FailStop(MintFailed))
  }

  // An effect with its arguments: refused at a sink, withheld, or offered to the gate.
  function Act(cfg: Config, st: RunState, v: VerbId, ts: seq<Tagged>, pc: Label, remaining: nat, k: Code,
               vs: seq<Tagged>): Machine {
    var arg := if |ts| == 1 && ts[0].value.Object? then ts[0].value else List(Values(ts));
    var low := Taints(pc, ts);
    if low.conf != {} && (v in cfg.schemas.external ==> cfg.schemas.external[v]) then
      Halt(st, FailStop(SinkRefused(v)))
    else if !cfg.withhold(v, arg) then Going(st, Then(Offer(v, arg, low, remaining), k), vs)
    else if !cfg.stored(|st.buffer|) then Halt(st, FailStop(BufferFailed(v)))
    else
      Going(st.(buffer := st.buffer + [Buffered(NextNum(st.buffer), v, cfg.target(v, arg), arg, 1)],
                withheld := st.withheld + 1, trace := st.trace + [v], notes := st.notes + [Note(low, true)]), k, vs)
  }

  // A loop over a list: within its bound every item has its round; beyond it the mode decides.
  function Enters(st: RunState, i: Instr, t: Tagged, k: Code, vs: seq<Tagged>): Machine
    requires i.Enter?
  {
    var items := if t.value.List? then t.value.items else [];
    if |items| <= i.bound then Iterating(st, i, items, t.taint, k, vs)
    else
      match i.mode
      case Strict => Halt(st, FailStop(BoundExceeded(i.bound, |items|)))
      case Truncate => Iterating(st, i, items[..i.bound], t.taint, k, vs)
      case Escalate =>
        var w := Wait(st, k, vs);
        if w.Going? then Iterating(w.st, i, items, t.taint, k, vs) else w
  }

  function Iterating(st: RunState, i: Instr, items: seq<Value>, taint: Label, k: Code, vs: seq<Tagged>): Machine
    requires i.Enter?
  {
    Going(st.(modes := st.modes + [i.mode]), Rounds(i.x, items, taint, i.body, Union(i.pc, taint), Then(Leave, k)), vs)
  }

  function Pops(i: Instr): nat {
    match i
    case Pick(_) => 1
    case Ask(_, n, _) => n
    case Compute(_, n) => n
    case IsThere => 1
    case Like(_) => 1
    case Compare(_) => 2
    case Both => 2
    case Either => 2
    case Negate => 1
    case Bind(_) => 1
    case Perform(_, n, _, _) => n
    case Choose(_, _, _) => 1
    case Enter(_, _, _, _, _) => 1
    case _ => 0
  }

  // One step; a machine without code, or short of values, stays as it is.
  function Step(cfg: Config, m: Machine): Machine {
    if m.Stopped? || m.code.End? || |m.vs| < Pops(m.code.first) then m
    else
      var h := |m.vs| - Pops(m.code.first);
      Apply(cfg, m, m.st, m.code.first, m.code.rest, m.vs[..h], m.vs[h..])
  }

  function Apply(cfg: Config, m: Machine, st: RunState, i: Instr, k: Code, vs: seq<Tagged>, ts: seq<Tagged>): Machine
    requires |ts| == Pops(i)
  {
    match i
    case PushExpr(e) => Expand(cfg, st, e, k, vs)
    case Pick(n) => Push(st, k, vs, Tagged(PickFrom(ts[0].value, n), ts[0].taint))
    case Ask(v, n, base) => Call(cfg, st, v, if n == 1 then ts[0].value else List(Values(ts)), Taints(base, ts), k, vs)
    case Compute(func, n) =>
      Call(cfg, st, Leaf("compute", "run"), Object([("func", Text(func)), ("args", List(Values(ts)))]),
        Taints(Label({}, {}), ts), k, vs)
    case PushGuard(g) => ExpandGuard(st, g, k, vs)
    case IsThere => Push(st, k, vs, Tagged(Flag(There(ts[0].value)), ts[0].taint))
    case Like(regex) =>
      var answer := cfg.matches(regex, if ts[0].value.Text? then ts[0].value.s else "");
      if answer.None? then Halt(st, FailStop(BadRegex))
      else Push(st, k, vs, Tagged(Flag(ts[0].value.Text? && answer.value), ts[0].taint))
    case Negate => if ts[0].value.Flag? then Push(st, k, vs, Tagged(Flag(!ts[0].value.on), ts[0].taint)) else m
    case Exec(s, pc, remaining) => ExpandStmt(st.(steps := st.steps + 1), s, pc, remaining, k, vs)
    case Bind(x) => Going(st.(env := st.env[x := ts[0]]), k, vs)
    case Put(x, t) => Going(st.(env := st.env[x := t]), k, vs)
    case Perform(v, n, pc, remaining) => Act(cfg, st, v, ts, pc, remaining, k, vs)
    case Offer(_, _, _, _) => Settle(cfg, st, i, k, vs)
    case Choose(yes, no, pc) =>
      var pc2 := Union(pc, ts[0].taint);
      if !ts[0].value.Flag? then m
      else if ts[0].value.on then Going(st, Block(yes, pc2, |yes|, k), vs)
      else Going(st, Block(no, pc2, |no|, k), vs)
    case Enter(_, _, _, _, _) => Enters(st, i, ts[0], k, vs)
    case Leave => Going(if st.modes == [] then st else st.(modes := st.modes[..|st.modes| - 1]), k, vs)
    case _ =>
      var b := Combined(i, ts[0], ts[1]);
      if b.None? then m else Push(st, k, vs, Tagged(Flag(b.value), Union(ts[0].taint, ts[1].taint)))
  }

  // ----- runs of the machine -----

  function After(cfg: Config, m: Machine, n: nat): Machine
    decreases n
  {
    if n == 0 then m else After(cfg, Step(cfg, m), n - 1)
  }

  ghost predicate Reaches(cfg: Config, m: Machine, end: Machine) {
    exists n: nat :: After(cfg, m, n) == end
  }

  lemma {:induction false} AfterAdd(cfg: Config, m: Machine, a: nat, b: nat)
    ensures After(cfg, m, a + b) == After(cfg, After(cfg, m, a), b)
    decreases a
  {
    hide Step;
    if a > 0 {
      AfterAdd(cfg, Step(cfg, m), a - 1, b);
    }
  }

  lemma ReachesSelf(cfg: Config, m: Machine)
    ensures Reaches(cfg, m, m)
  {
    assert After(cfg, m, 0) == m;
  }

  lemma ReachesOn(cfg: Config, m: Machine, mid: Machine, end: Machine)
    requires Reaches(cfg, m, mid) && Reaches(cfg, mid, end)
    ensures Reaches(cfg, m, end)
  {
    hide After;
    var a: nat :| After(cfg, m, a) == mid;
    var b: nat :| After(cfg, mid, b) == end;
    AfterAdd(cfg, m, a, b);
  }

  lemma StepReaches(cfg: Config, m: Machine, end: Machine)
    requires Reaches(cfg, Step(cfg, m), end)
    ensures Reaches(cfg, m, end)
  {
    hide Step;
    var n: nat :| After(cfg, Step(cfg, m), n) == end;
    assert After(cfg, m, n + 1) == end;
  }
}
