// What an expression or guard reads, and which atoms its label therefore has.

module PlanReadings {
  import opened Prelude
  import opened PlanShapes
  import opened PlanIr
  import opened PlanCheck

  // ----- labels -----

  // The join is the least label above both.
  lemma JoinLeast(a: Label, b: Label)
    ensures a.Leq(a.Join(b)) && b.Leq(a.Join(b))
    ensures forall c: Label :: a.Leq(c) && b.Leq(c) ==> a.Join(b).Leq(c)
    ensures forall c: Label :: c.Leq(a) && a.Leq(c) <==> c == a
  {
  }

  datatype Atom = Secret(name: Name) | Tainted(name: Name)

  predicate Has(l: Label, a: Atom) {
    match a
    case Secret(n) => n in l.conf
    case Tainted(n) => n in l.integ
  }

  lemma JoinHas(x: Label, y: Label, a: Atom)
    ensures Has(x.Join(y), a) <==> Has(x, a) || Has(y, a)
  {
  }

  // ----- what an expression reads -----

  function Observed(e: Expr): set<VerbId>
    decreases e, 0
  {
    match e
    case Observe(v, args) => {v} + ArgsObserved(args)
    case Pure(_, args) => ArgsObserved(args)
    case Const(_) => {}
    case Var(_) => {}
    case Index(base, _) => Observed(base)
  }

  function ArgsObserved(args: seq<Expr>): set<VerbId>
    decreases args, 0
  {
    if args == [] then {} else ArgsObserved(args[..|args| - 1]) + Observed(args[|args| - 1])
  }

  function Used(e: Expr): set<Name>
    decreases e, 0
  {
    match e
    case Observe(_, args) => ArgsUsed(args)
    case Pure(_, args) => ArgsUsed(args)
    case Const(_) => {}
    case Var(x) => {x}
    case Index(base, _) => Used(base)
  }

  function ArgsUsed(args: seq<Expr>): set<Name>
    decreases args, 0
  {
    if args == [] then {} else ArgsUsed(args[..|args| - 1]) + Used(args[|args| - 1])
  }

  function GuardObserved(g: Guard): set<VerbId> {
    match g
    case Exists(e) => Observed(e)
    case Matches(e, _) => Observed(e)
    case Cmp(a, _, b) => Observed(a) + Observed(b)
    case And(l, r) => GuardObserved(l) + GuardObserved(r)
    case Or(l, r) => GuardObserved(l) + GuardObserved(r)
    case Not(h) => GuardObserved(h)
  }

  function GuardUsed(g: Guard): set<Name> {
    match g
    case Exists(e) => Used(e)
    case Matches(e, _) => Used(e)
    case Cmp(a, _, b) => Used(a) + Used(b)
    case And(l, r) => GuardUsed(l) + GuardUsed(r)
    case Or(l, r) => GuardUsed(l) + GuardUsed(r)
    case Not(h) => GuardUsed(h)
  }

  // ----- the label of an expression, atom by atom -----

  // Everything read at one place of the text: verbs, and variables as they are at that place.
  datatype Reading = Reading(verbs: set<VerbId>, names: set<Name>)

  predicate Readable(sch: Schemas, env: Labels, r: Reading) {
    r.verbs <= sch.observe.Keys && r.names <= env.Keys
  }

  ghost predicate Brings(sch: Schemas, env: Labels, r: Reading, a: Atom) {
    || (exists v :: v in r.verbs && v in sch.observe && Has(sch.observe[v], a))
    || (exists x :: x in r.names && x in env && Has(env[x], a))
  }

  // A label derived on top of a base: possible when everything read is known, and then it has the
  // atoms of the base and of what is read.
  ghost predicate Derives(sch: Schemas, env: Labels, r: Reading, base: Label, l: Result<Label, AdmitError>) {
    && (l.Ok? <==> Readable(sch, env, r))
    && (l.Ok? ==> forall a {:trigger Has(l.value, a)} :: Has(l.value, a) <==> Has(base, a) || Brings(sch, env, r, a))
  }

  lemma BringsBoth(sch: Schemas, env: Labels, r: Reading, s: Reading, a: Atom)
    ensures Brings(sch, env, Reading(r.verbs + s.verbs, r.names + s.names), a) <==>
            Brings(sch, env, r, a) || Brings(sch, env, s, a)
  {
  }

  lemma DerivesBoth(sch: Schemas, env: Labels, r: Reading, s: Reading, base: Label, l: Result<Label, AdmitError>,
                    m: Result<Label, AdmitError>, both: Result<Label, AdmitError>)
    requires Derives(sch, env, r, base, l) && Derives(sch, env, s, PUBLIC, m)
    requires both.Ok? <==> l.Ok? && m.Ok?
    requires both.Ok? ==> both.value == l.value.Join(m.value)
    ensures Derives(sch, env, Reading(r.verbs + s.verbs, r.names + s.names), base, both)
  {
    hide Brings, Has;
    if both.Ok? {
      forall a
        ensures Has(both.value, a) <==>
                Has(base, a) || Brings(sch, env, Reading(r.verbs + s.verbs, r.names + s.names), a)
      {
        BringsBoth(sch, env, r, s, a);
        JoinHas(l.value, m.value, a);
        NothingPublic(a);
        assert Has(l.value, a) <==> Has(base, a) || Brings(sch, env, r, a);
        assert Has(m.value, a) <==> Has(PUBLIC, a) || Brings(sch, env, s, a);
      }
    }
  }

  lemma NothingPublic(a: Atom)
    ensures !Has(PUBLIC, a)
  {
  }

  lemma {:induction false} ExprDerives(sch: Schemas, env: Labels, e: Expr)
    ensures Derives(sch, env, Reading(Observed(e), Used(e)), PUBLIC, ExprLabel(sch, env, e))
    decreases e, 0
  {
    match e {
      case Observe(v, args) =>
        if v in sch.observe {
          ArgsDerive(sch, env, args, sch.observe[v]);
          ReadOnTop(sch, env, v, args);
        }
      case Pure(_, args) => ArgsDerive(sch, env, args, PUBLIC);
      case Const(_) =>
      case Var(x) =>
      case Index(base, _) => ExprDerives(sch, env, base);
    }
  }

  lemma ReadOnTop(sch: Schemas, env: Labels, v: VerbId, args: seq<Expr>)
    requires v in sch.observe
    requires Derives(sch, env, Reading(ArgsObserved(args), ArgsUsed(args)), sch.observe[v],
               ArgsLabel(sch, env, args, sch.observe[v]))
    ensures Derives(sch, env, Reading({v} + ArgsObserved(args), ArgsUsed(args)), PUBLIC,
              ArgsLabel(sch, env, args, sch.observe[v]))
  {
    hide ArgsLabel, ArgsObserved, ArgsUsed, Has;
    var l := ArgsLabel(sch, env, args, sch.observe[v]);
    var r := Reading(ArgsObserved(args), ArgsUsed(args));
    if l.Ok? {
      forall a
        ensures Has(l.value, a) <==> Has(PUBLIC, a) || Brings(sch, env, Reading({v} + r.verbs, r.names), a)
      {
        NothingPublic(a);
        assert Has(l.value, a) <==> Has(sch.observe[v], a) || Brings(sch, env, r, a);
      }
    }
  }

  lemma {:induction false} ArgsDerive(sch: Schemas, env: Labels, args: seq<Expr>, base: Label)
    ensures Derives(sch, env, Reading(ArgsObserved(args), ArgsUsed(args)), base, ArgsLabel(sch, env, args, base))
    decreases args, 0
  {
    if args != [] {
      var n := |args| - 1;
      ArgsDerive(sch, env, args[..n], base);
      ExprDerives(sch, env, args[n]);
      DerivesBoth(sch, env, Reading(ArgsObserved(args[..n]), ArgsUsed(args[..n])),
        Reading(Observed(args[n]), Used(args[n])), base, ArgsLabel(sch, env, args[..n], base),
        ExprLabel(sch, env, args[n]), ArgsLabel(sch, env, args, base));
    }
  }

  lemma {:induction false} GuardDerives(sch: Schemas, env: Labels, g: Guard)
    ensures Derives(sch, env, Reading(GuardObserved(g), GuardUsed(g)), PUBLIC, GuardLabel(sch, env, g))
    decreases g
  {
    match g {
      case Exists(e) => ExprDerives(sch, env, e);
      case Matches(e, _) => ExprDerives(sch, env, e);
      case Cmp(a, _, b) =>
        ExprDerives(sch, env, a);
        ExprDerives(sch, env, b);
        DerivesBoth(sch, env, Reading(Observed(a), Used(a)), Reading(Observed(b), Used(b)), PUBLIC,
          ExprLabel(sch, env, a), ExprLabel(sch, env, b), GuardLabel(sch, env, g));
      case And(l, r) => PairDerives(sch, env, g, l, r);
      case Or(l, r) => PairDerives(sch, env, g, l, r);
      case Not(h) => GuardDerives(sch, env, h);
    }
  }

  lemma {:induction false} PairDerives(sch: Schemas, env: Labels, g: Guard, l: Guard, r: Guard)
    requires g == And(l, r) || g == Or(l, r)
    ensures Derives(sch, env, Reading(GuardObserved(g), GuardUsed(g)), PUBLIC, GuardLabel(sch, env, g))
    decreases g, 0
  {
    GuardDerives(sch, env, l);
    GuardDerives(sch, env, r);
    DerivesBoth(sch, env, Reading(GuardObserved(l), GuardUsed(l)), Reading(GuardObserved(r), GuardUsed(r)), PUBLIC,
      GuardLabel(sch, env, l), GuardLabel(sch, env, r), GuardLabel(sch, env, g));
  }
}
