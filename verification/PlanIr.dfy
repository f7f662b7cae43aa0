// The plan language: values, labels, expressions, guards, statements, and the projection
// onto metering shapes.

module PlanIr {
  import opened Prelude
  import opened PlanShapes
  import C = Coeffect
  import D = Doubles

  // A verb is a family and a short name.
  type VerbId = Leaf

  const COMPUTE: VerbId := Leaf("compute", "run")

  // ----- labels: two powersets, joined by union -----

  datatype Label = Label(conf: set<Name>, integ: set<Name>) {
    function Join(other: Label): Label { Label(conf + other.conf, integ + other.integ) }
    predicate Leq(other: Label) { conf <= other.conf && integ <= other.integ }
  }

  const PUBLIC: Label := Label({}, {})

  // ----- values -----

  // A JSON number is a whole number of 64 bits, signed or not, or a double.
  type Whole64 = i: int | 0 <= i + I64_MAX + 1 && i <= U64_MAX

  datatype Number = Whole(i: Whole64) | Double(d: real) {
    function AsDouble(): real {
      match this
      case Whole(i) => D.ToDouble(i) as real
      case Double(d) => d
    }
  }

  datatype Value =
    | Null
    | Flag(on: bool)
    | Num(n: Number)
    | Text(s: string)
    | List(items: seq<Value>)
    | Object(fields: seq<(Name, Value)>)
  {
    function Items(): seq<Value> { if List? then items else [] }
    function At(i: nat): Value { if List? && i < |items| then items[i] else Null }
    predicate Present() { if List? then items != [] else !Null? }
  }

  datatype Ordering = Less | Equal | Greater

  function TextOrder(a: string, b: string): Ordering {
    if a == [] then (if b == [] then Equal else Less)
    else if b == [] then Greater
    else if a[0] < b[0] then Less
    else if b[0] < a[0] then Greater
    else TextOrder(a[1..], b[1..])
  }

  lemma {:induction false} TextOrderTotal(a: string, b: string)
    ensures TextOrder(a, b).Equal? <==> a == b
    ensures TextOrder(a, b).Less? <==> TextOrder(b, a).Greater?
  {
    if a != [] && b != [] && a[0] == b[0] {
      TextOrderTotal(a[1..], b[1..]);
      assert a == [a[0]] + a[1..] && b == [b[0]] + b[1..];
    }
  }

  lemma {:induction false} TextOrderTransitive(a: string, b: string, c: string)
    requires TextOrder(a, b).Less? && TextOrder(b, c).Less?
    ensures TextOrder(a, c).Less?
  {
    if a != [] && b != [] && c != [] && a[0] == b[0] == c[0] {
      TextOrderTransitive(a[1..], b[1..], c[1..]);
    }
  }

  // Only numbers with numbers, as doubles, and texts with texts are ordered.
  function CmpValues(a: Value, b: Value): Option<Ordering> {
    match (a, b)
    case (Num(m), Num(n)) =>
      var x, y := m.AsDouble(), n.AsDouble();
      Some(if x < y then Less else if x == y then Equal else Greater)
    case (Text(x), Text(y)) => Some(TextOrder(x, y))
    case _ => None
  }

  datatype CmpOp = Eq | Ne | Lt | Le | Gt | Ge {
    predicate Holds(o: Option<Ordering>) {
      match (this, o)
      case (_, None) => false
      case (Eq, Some(x)) => x.Equal?
      case (Ne, Some(x)) => !x.Equal?
      case (Lt, Some(x)) => x.Less?
      case (Le, Some(x)) => !x.Greater?
      case (Gt, Some(x)) => x.Greater?
      case (Ge, Some(x)) => !x.Less?
    }
  }

  // Exactly one of less, equal and greater holds of two comparable values; the six
  // operators agree with it, and incomparable values satisfy none of them. Equality is that of
  // texts, and of the doubles of numbers.
  lemma CmpExact(a: Value, b: Value)
    ensures CmpValues(a, b).Some? <==> (a.Num? && b.Num?) || (a.Text? && b.Text?)
    ensures var o := CmpValues(a, b);
            && (Eq.Holds(o) <==> (a.Text? && a == b) || (a.Num? && b.Num? && a.n.AsDouble() == b.n.AsDouble()))
            && (Ne.Holds(o) <==> o.Some? && !Eq.Holds(o))
            && (Lt.Holds(o) <==> Gt.Holds(CmpValues(b, a)))
            && (Le.Holds(o) <==> Lt.Holds(o) || Eq.Holds(o)) && (Ge.Holds(o) <==> Gt.Holds(o) || Eq.Holds(o))
            && (o.Some? ==> Lt.Holds(o) || Eq.Holds(o) || Gt.Holds(o))
  {
    hide D.ToDouble;
    if a.Text? && b.Text? {
      TextOrderTotal(a.s, b.s);
      TextOrderTotal(b.s, a.s);
    }
  }

  function WholeValue(i: Whole64): Value {
    Num(Whole(i))
  }

  predicate HasOwnDouble(i: int) {
    i <= D.EXACT && -i <= D.EXACT
  }

  // Whole numbers are never compared the wrong way round, and up to 2^53 in magnitude they are
  // compared exactly.
  lemma WholeOrder(i: Whole64, j: Whole64)
    requires i < j
    ensures !Gt.Holds(CmpValues(WholeValue(i), WholeValue(j)))
    ensures HasOwnDouble(i) && HasOwnDouble(j) ==> Lt.Holds(CmpValues(WholeValue(i), WholeValue(j)))
  {
    hide D.ToDouble;
    D.ToDoubleMonotone(i, j);
    if HasOwnDouble(i) && HasOwnDouble(j) {
      D.ToDoubleExact(i);
      D.ToDoubleExact(j);
    }
  }

  // Right above that, two different whole numbers compare equal.
  lemma WholesCollide()
    ensures Eq.Holds(CmpValues(WholeValue(D.EXACT), WholeValue(D.EXACT + 1)))
  {
    hide D.ToDouble;
    D.FirstCollision();
  }

  // ----- syntax -----

  datatype Mode = Strict | Truncate | Escalate

  datatype Expr =
    | Observe(verb: VerbId, args: seq<Expr>)
    | Pure(func: Name, args: seq<Expr>)
    | Const(value: Value)
    | Var(name: Name)
    | Index(base: Expr, idx: U32)

  datatype Guard =
    | Exists(expr: Expr)
    | Matches(expr: Expr, regex: string)
    | Cmp(lhs: Expr, op: CmpOp, rhs: Expr)
    | And(l: Guard, r: Guard)
    | Or(l: Guard, r: Guard)
    | Not(g: Guard)

  datatype Stmt =
    | Let(name: Name, expr: Expr)
    | Effect(verb: VerbId, args: seq<Expr>)
    | If(guard: Guard, thenArm: seq<Stmt>, elseArm: seq<Stmt>)
    | Foreach(item: Name, list: Expr, bound: U32, mode: Mode, body: seq<Stmt>)

  // ----- static counts -----

  // Statements executed when every loop runs to its bound and both arms of every branch run.
  function Steps(stmts: seq<Stmt>): nat
    decreases stmts, 0
  {
    if stmts == [] then 0 else Steps(stmts[..|stmts| - 1]) + StmtSteps(stmts[|stmts| - 1])
  }

  function StmtSteps(s: Stmt): nat
    decreases s, 0
  {
    match s
    case Let(_, _) => 1
    case Effect(_, _) => 1
    case If(_, a, b) => 1 + Steps(a) + Steps(b)
    case Foreach(_, _, bound, _, body) => 1 + bound * Steps(body)
  }

  // Occurrences of one effect verb, scaled by the enclosing bounds.
  function Occ(stmts: seq<Stmt>, v: VerbId): nat
    decreases stmts, 0
  {
    if stmts == [] then 0 else Occ(stmts[..|stmts| - 1], v) + StmtOcc(stmts[|stmts| - 1], v)
  }

  function StmtOcc(s: Stmt, v: VerbId): nat
    decreases s, 0
  {
    match s
    case Let(_, _) => 0
    case Effect(verb, _) => if verb == v then 1 else 0
    case If(_, a, b) => Occ(a, v) + Occ(b, v)
    case Foreach(_, _, bound, _, body) => bound * Occ(body, v)
  }

  lemma {:induction false} OccWithinSteps(stmts: seq<Stmt>, v: VerbId)
    ensures Occ(stmts, v) <= Steps(stmts)
    decreases stmts, 0
  {
    if stmts != [] {
      OccWithinSteps(stmts[..|stmts| - 1], v);
      StmtOccWithinSteps(stmts[|stmts| - 1], v);
    }
  }

  lemma {:induction false} StmtOccWithinSteps(s: Stmt, v: VerbId)
    ensures StmtOcc(s, v) <= StmtSteps(s)
    decreases s, 0
  {
    match s {
      case Let(_, _) =>
      case Effect(_, _) =>
      case If(_, a, b) =>
        OccWithinSteps(a, v);
        OccWithinSteps(b, v);
      case Foreach(_, _, bound, _, body) =>
        OccWithinSteps(body, v);
        C.ScaleMonotone(bound, bound, Occ(body, v), Steps(body));
    }
  }

  // Names bound by lets and loops.
  function BoundNames(stmts: seq<Stmt>): set<Name>
    decreases stmts, 0
  {
    if stmts == [] then {} else BoundNames(stmts[..|stmts| - 1]) + StmtBoundNames(stmts[|stmts| - 1])
  }

  function StmtBoundNames(s: Stmt): set<Name>
    decreases s, 0
  {
    match s
    case Let(x, _) => {x}
    case Effect(_, _) => {}
    case If(_, a, b) => BoundNames(a) + BoundNames(b)
    case Foreach(x, _, _, _, body) => {x} + BoundNames(body)
  }

  // Every name is bound at one textual site, and none of them is in `taken`.
  predicate BindsOnce(stmts: seq<Stmt>, taken: set<Name>)
    decreases stmts, 0
  {
    stmts == [] ||
    (&& BindsOnce(stmts[..|stmts| - 1], taken)
     && StmtBindsOnce(stmts[|stmts| - 1], taken + BoundNames(stmts[..|stmts| - 1])))
  }

  predicate StmtBindsOnce(s: Stmt, taken: set<Name>)
    decreases s, 0
  {
    match s
    case Let(x, _) => x !in taken
    case Effect(_, _) => true
    case If(_, a, b) => BindsOnce(a, taken) && BindsOnce(b, taken + BoundNames(a))
    case Foreach(x, _, _, _, body) => x !in taken && BindsOnce(body, taken + {x})
  }

  // No loop escalates.
  predicate EscalateFree(stmts: seq<Stmt>)
    decreases stmts, 0
  {
    stmts == [] || (EscalateFree(stmts[..|stmts| - 1]) && StmtEscalateFree(stmts[|stmts| - 1]))
  }

  predicate StmtEscalateFree(s: Stmt)
    decreases s, 0
  {
    match s
    case Let(_, _) => true
    case Effect(_, _) => true
    case If(_, a, b) => EscalateFree(a) && EscalateFree(b)
    case Foreach(_, _, _, mode, body) => !mode.Escalate? && EscalateFree(body)
  }

  // ----- the projection: one node per statement, reads and lets transparent -----

  datatype AstNode =
    | EffectNode(verb: VerbId)
    | LoopNode(bound: U64, body: seq<AstNode>)
    | BranchNode(thenArm: seq<AstNode>, elseArm: seq<AstNode>)
    | SeqNode(items: seq<AstNode>)
    | Unmetered

  function ToAstNodes(stmts: seq<Stmt>): (r: seq<AstNode>)
    ensures |r| == |stmts|
    decreases stmts, 0
  {
    if stmts == [] then [] else ToAstNodes(stmts[..|stmts| - 1]) + [NodeOf(stmts[|stmts| - 1])]
  }

  function NodeOf(s: Stmt): AstNode
    decreases s, 0
  {
    match s
    case Effect(verb, _) => EffectNode(verb)
    case Foreach(_, _, bound, _, body) => LoopNode(bound, ToAstNodes(body))
    case If(_, a, b) => BranchNode(ToAstNodes(a), ToAstNodes(b))
    case Let(_, _) => Unmetered
  }

  function FromAst(nodes: seq<AstNode>): Plan
    decreases nodes, 1
  {
    Seq(FromAstAll(nodes))
  }

  function FromAstAll(nodes: seq<AstNode>): (r: seq<Plan>)
    ensures |r| == |nodes|
    decreases nodes, 0
  {
    if nodes == [] then [] else FromAstAll(nodes[..|nodes| - 1]) + [FromNode(nodes[|nodes| - 1])]
  }

  function FromNode(n: AstNode): Plan
    decreases n, 0
  {
    match n
    case EffectNode(verb) => Verb(verb)
    case LoopNode(bound, body) => Loop(bound, FromAst(body))
    case BranchNode(a, b) => Branch(FromAst(a), FromAst(b))
    case SeqNode(items) => FromAst(items)
    case Unmetered => Seq([])
  }

  // The plan a statement list stands for.
  function Shape(stmts: seq<Stmt>): Plan {
    FromAst(ToAstNodes(stmts))
  }

  lemma ShapeSnoc(stmts: seq<Stmt>)
    requires stmts != []
    ensures Shape(stmts).Seq? && Shape(stmts[..|stmts| - 1]).Seq?
    ensures Shape(stmts).items == Shape(stmts[..|stmts| - 1]).items + [FromNode(NodeOf(stmts[|stmts| - 1]))]
  {
    var nodes := ToAstNodes(stmts);
    assert nodes[..|nodes| - 1] == ToAstNodes(stmts[..|stmts| - 1]);
    assert nodes[|nodes| - 1] == NodeOf(stmts[|stmts| - 1]);
    assert FromAstAll(nodes) == FromAstAll(nodes[..|nodes| - 1]) + [FromNode(nodes[|nodes| - 1])];
  }

  // ----- the occurrence count is the law-side demand of the projection -----

  // `k` is the effect class of `v` and of no other verb.
  ghost predicate ClassOf(lookup: C.Lookup, v: VerbId, k: Name) {
    forall l: Leaf :: C.Get(lookup(l).uses, k) == if l == v then 1 else 0
  }

  lemma {:induction false} OccIsDemand(stmts: seq<Stmt>, lookup: C.Lookup, v: VerbId, k: Name)
    requires ClassOf(lookup, v, k)
    ensures C.Get(C.DemandSum(Shape(stmts), lookup).uses, k) == Occ(stmts, v)
    decreases stmts, 0
  {
    hide C.MergeBudget, C.ScaleBudget;
    if stmts != [] {
      var n := |stmts| - 1;
      ShapeSnoc(stmts);
      OccIsDemand(stmts[..n], lookup, v, k);
      StmtOccIsDemand(stmts[n], lookup, v, k);
      var items := Shape(stmts).items;
      assert items[..|items| - 1] == Shape(stmts[..n]).items;
    }
  }

  lemma {:induction false} StmtOccIsDemand(s: Stmt, lookup: C.Lookup, v: VerbId, k: Name)
    requires ClassOf(lookup, v, k)
    ensures C.Get(C.DemandSum(FromNode(NodeOf(s)), lookup).uses, k) == StmtOcc(s, v)
    decreases s, 0
  {
    hide C.MergeBudget, C.ScaleBudget;
    match s {
      case Let(_, _) =>
      case Effect(_, _) =>
      case If(_, a, b) =>
        OccIsDemand(a, lookup, v, k);
        OccIsDemand(b, lookup, v, k);
      case Foreach(_, _, bound, _, body) =>
        OccIsDemand(body, lookup, v, k);
    }
  }
}
