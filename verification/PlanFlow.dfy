// Where a label comes from: the text of a plan as a sequence of events, and the flow of each atom
// from the verbs that are read, through variables, arguments, guards and lists.

module PlanFlow {
  import opened Prelude
  import opened PlanShapes
  import opened PlanIr
  import opened PlanCheck
  import opened PlanAnnotations
  import opened PlanReadings

  // ----- the text as events -----

  datatype Kind = Binds(x: Name) | Acts(verb: VerbId) | Tests

  // A reading at a place: the variables are those bound before event `at`.
  datatype Part = Part(r: Reading, at: nat)

  // What happens at one place of the text, what it reads there, and for an effect the guards and
  // lists around it.
  datatype Event = Event(kind: Kind, own: Reading, around: seq<Part>)

  function ExprReading(e: Expr): Reading {
    Reading(Observed(e), Used(e))
  }

  function ListEvents(stmts: seq<Stmt>, at: nat, around: seq<Part>): seq<Event>
    decreases stmts, 0
  {
    if stmts == [] then []
    else
      var front := ListEvents(stmts[..|stmts| - 1], at, around);
      front + StmtEvents(stmts[|stmts| - 1], at + |front|, around)
  }

  function StmtEvents(s: Stmt, at: nat, around: seq<Part>): seq<Event>
    decreases s, 0
  {
    match s
    case Let(x, e) => [Event(Binds(x), ExprReading(e), [])]
    case Effect(v, args) => [Event(Acts(v), Reading(ArgsObserved(args), ArgsUsed(args)), around)]
    case If(g, a, b) =>
      var r := Reading(GuardObserved(g), GuardUsed(g));
      var inner := around + [Part(r, at)];
      var first := ListEvents(a, at + 1, inner);
      [Event(Tests, r, [])] + (first + ListEvents(b, at + 1 + |first|, inner))
    case Foreach(x, list, _, _, body) =>
      [Event(Binds(x), ExprReading(list), [])] + ListEvents(body, at + 1, around + [Part(ExprReading(list), at)])
  }

  // ----- flows -----

  // The last event before `n` that binds `x`.
  function LastBefore(ev: seq<Event>, n: nat, x: Name): (r: Option<nat>)
    requires n <= |ev|
    ensures r.Some? ==> r.value < n && ev[r.value].kind == Binds(x)
    ensures r.Some? ==> forall j :: r.value < j < n ==> ev[j].kind != Binds(x)
    ensures r.None? ==> forall j :: 0 <= j < n ==> ev[j].kind != Binds(x)
  {
    if n == 0 then None else if ev[n - 1].kind == Binds(x) then Some(n - 1) else LastBefore(ev, n - 1, x)
  }

  // An atom flows into a reading from a verb that is read, or from a variable whose last binding it
  // flowed into.
  ghost predicate FlowsIn(sch: Schemas, ev: seq<Event>, p: Part, a: Atom)
    requires p.at <= |ev|
    decreases 2 * p.at
  {
    || (exists v :: v in p.r.verbs && v in sch.observe && Has(sch.observe[v], a))
    || (exists x :: x in p.r.names && LastBefore(ev, p.at, x).Some? &&
                    FlowsTo(sch, ev, LastBefore(ev, p.at, x).value, a))
  }

  // An atom flows to an event through what it reads and through the guards and lists around it.
  ghost predicate FlowsTo(sch: Schemas, ev: seq<Event>, i: nat, a: Atom)
    requires i < |ev|
    decreases 2 * i + 1
  {
    || FlowsIn(sch, ev, Part(ev[i].own, i), a)
    || (exists k :: 0 <= k < |ev[i].around| && ev[i].around[k].at <= i && FlowsIn(sch, ev, ev[i].around[k], a))
  }

  // Everything read is declared, every variable was bound before, and no secret reaches an external
  // effect.
  ghost predicate EventOk(sch: Schemas, ev: seq<Event>, i: nat)
    requires i < |ev|
  {
    && ev[i].own.verbs <= sch.observe.Keys
    && (forall x :: x in ev[i].own.names ==> LastBefore(ev, i, x).Some?)
    && (ev[i].kind.Acts? ==>
          && ev[i].kind.verb in sch.external
          && (sch.external[ev[i].kind.verb] ==> forall n :: !FlowsTo(sch, ev, i, Secret(n))))
  }

  ghost predicate AllOk(sch: Schemas, ev: seq<Event>, from: nat) {
    forall i: nat {:trigger EventOk(sch, ev, i)} :: from <= i < |ev| ==> EventOk(sch, ev, i)
  }

  // ----- a longer text does not change what came before -----

  lemma {:induction false} LastSame(ev: seq<Event>, more: seq<Event>, n: nat, x: Name)
    requires n <= |ev|
    ensures LastBefore(ev + more, n, x) == LastBefore(ev, n, x)
    decreases n
  {
    if n > 0 {
      LastSame(ev, more, n - 1, x);
    }
  }

  lemma {:induction false} FlowsInSame(sch: Schemas, ev: seq<Event>, more: seq<Event>, p: Part, a: Atom)
    requires p.at <= |ev|
    ensures FlowsIn(sch, ev + more, p, a) <==> FlowsIn(sch, ev, p, a)
    decreases 2 * p.at
  {
    forall x | x in p.r.names
      ensures LastBefore(ev + more, p.at, x) == LastBefore(ev, p.at, x)
      ensures LastBefore(ev, p.at, x).Some? ==>
                (FlowsTo(sch, ev + more, LastBefore(ev, p.at, x).value, a) <==>
                 FlowsTo(sch, ev, LastBefore(ev, p.at, x).value, a))
    {
      LastSame(ev, more, p.at, x);
      if LastBefore(ev, p.at, x).Some? {
        FlowsToSame(sch, ev, more, LastBefore(ev, p.at, x).value, a);
      }
    }
  }

  lemma {:induction false} FlowsToSame(sch: Schemas, ev: seq<Event>, more: seq<Event>, i: nat, a: Atom)
    requires i < |ev|
    ensures FlowsTo(sch, ev + more, i, a) <==> FlowsTo(sch, ev, i, a)
    decreases 2 * i + 1
  {
    hide FlowsIn;
    var e := ev[i];
    assert (ev + more)[i] == e;
    FlowsInSame(sch, ev, more, Part(e.own, i), a);
    forall k | 0 <= k < |e.around| && e.around[k].at <= i
      ensures FlowsIn(sch, ev + more, e.around[k], a) <==> FlowsIn(sch, ev, e.around[k], a)
    {
      FlowsInSame(sch, ev, more, e.around[k], a);
    }
  }

  lemma EventSame(sch: Schemas, ev: seq<Event>, more: seq<Event>, i: nat)
    requires i < |ev|
    ensures EventOk(sch, ev + more, i) <==> EventOk(sch, ev, i)
  {
    hide FlowsTo;
    assert (ev + more)[i] == ev[i];
    forall x | x in ev[i].own.names
      ensures LastBefore(ev + more, i, x) == LastBefore(ev, i, x)
    {
      LastSame(ev, more, i, x);
    }
    forall n
      ensures FlowsTo(sch, ev + more, i, Secret(n)) <==> FlowsTo(sch, ev, i, Secret(n))
    {
      FlowsToSame(sch, ev, more, i, Secret(n));
    }
  }

  lemma AllOkSplit(sch: Schemas, ev: seq<Event>, more: seq<Event>, from: nat)
    requires from <= |ev|
    ensures AllOk(sch, ev + more, from) <==> AllOk(sch, ev, from) && AllOk(sch, ev + more, |ev|)
  {
    hide EventOk;
    forall i: nat | i < |ev|
      ensures EventOk(sch, ev + more, i) <==> EventOk(sch, ev, i)
    {
      EventSame(sch, ev, more, i);
    }
  }

  // ----- the walk keeps track of the flows -----

  // The environment holds, for each name bound so far, the atoms that flowed to its last binding.
  ghost predicate Tracks(sch: Schemas, ev: seq<Event>, env: Labels) {
    && (forall x :: x in env <==> LastBefore(ev, |ev|, x).Some?)
    && forall x, a {:trigger Has(env[x], a)} :: x in env ==>
         (Has(env[x], a) <==> FlowsTo(sch, ev, LastBefore(ev, |ev|, x).value, a))
  }

  ghost predicate SomeFlows(sch: Schemas, ev: seq<Event>, parts: seq<Part>, a: Atom) {
    exists k :: 0 <= k < |parts| && parts[k].at <= |ev| && FlowsIn(sch, ev, parts[k], a)
  }

  ghost predicate TracksAround(sch: Schemas, ev: seq<Event>, around: seq<Part>, pc: Label) {
    && (forall k :: 0 <= k < |around| ==> around[k].at <= |ev|)
    && forall a {:trigger Has(pc, a)} :: Has(pc, a) <==> SomeFlows(sch, ev, around, a)
  }

  lemma ReadingFlows(sch: Schemas, ev: seq<Event>, env: Labels, r: Reading, a: Atom)
    requires Tracks(sch, ev, env)
    ensures Brings(sch, env, r, a) <==> FlowsIn(sch, ev, Part(r, |ev|), a)
  {
    hide FlowsTo, Has;
    forall x | x in r.names
      ensures x in env && Has(env[x], a) <==>
              LastBefore(ev, |ev|, x).Some? && FlowsTo(sch, ev, LastBefore(ev, |ev|, x).value, a)
    {
      assert x in env ==> (Has(env[x], a) <==> FlowsTo(sch, ev, LastBefore(ev, |ev|, x).value, a));
    }
  }

  lemma ReadingKnown(sch: Schemas, ev: seq<Event>, env: Labels, r: Reading)
    requires Tracks(sch, ev, env)
    ensures Readable(sch, env, r) <==>
            r.verbs <= sch.observe.Keys && forall x :: x in r.names ==> LastBefore(ev, |ev|, x).Some?
  {
  }

  lemma AroundStays(sch: Schemas, ev: seq<Event>, more: seq<Event>, around: seq<Part>, pc: Label)
    requires TracksAround(sch, ev, around, pc)
    ensures TracksAround(sch, ev + more, around, pc)
  {
    hide FlowsIn, Has;
    forall a
      ensures SomeFlows(sch, ev + more, around, a) <==> SomeFlows(sch, ev, around, a)
    {
      forall k | 0 <= k < |around|
        ensures FlowsIn(sch, ev + more, around[k], a) <==> FlowsIn(sch, ev, around[k], a)
      {
        FlowsInSame(sch, ev, more, around[k], a);
      }
    }
  }

  // One more guard or list around.
  lemma AroundGrows(sch: Schemas, ev: seq<Event>, around: seq<Part>, pc: Label, p: Part, l: Label)
    requires TracksAround(sch, ev, around, pc) && p.at <= |ev|
    requires forall a {:trigger Has(l, a)} :: Has(l, a) <==> FlowsIn(sch, ev, p, a)
    ensures TracksAround(sch, ev, around + [p], pc.Join(l))
  {
    hide FlowsIn, Has;
    var all := around + [p];
    forall a
      ensures Has(pc.Join(l), a) <==> SomeFlows(sch, ev, all, a)
    {
      JoinHas(pc, l, a);
      assert Has(l, a) <==> FlowsIn(sch, ev, p, a);
      assert all[|around|] == p;
      assert Has(pc, a) <==> SomeFlows(sch, ev, around, a);
      if SomeFlows(sch, ev, around, a) {
        var k :| 0 <= k < |around| && around[k].at <= |ev| && FlowsIn(sch, ev, around[k], a);
        assert all[k] == around[k];
      }
    }
  }

  // ----- sites and annotations -----

  function Sites(ev: seq<Event>, from: nat, n: nat): seq<nat>
    requires n <= |ev|
  {
    if n <= from then []
    else Sites(ev, from, n - 1) + (if ev[n - 1].kind.Acts? then [n - 1] else [])
  }

  lemma {:induction false} SitesBelow(ev: seq<Event>, from: nat, n: nat)
    requires n <= |ev|
    ensures forall m :: 0 <= m < |Sites(ev, from, n)| ==>
              from <= Sites(ev, from, n)[m] < n && ev[Sites(ev, from, n)[m]].kind.Acts?
    decreases n
  {
    if n > from {
      SitesBelow(ev, from, n - 1);
    }
  }

  lemma {:induction false} SitesSame(ev: seq<Event>, more: seq<Event>, from: nat, n: nat)
    requires n <= |ev|
    ensures Sites(ev + more, from, n) == Sites(ev, from, n)
    decreases n
  {
    if n > from {
      SitesSame(ev, more, from, n - 1);
    }
  }

  lemma {:induction false} SitesSplit(ev: seq<Event>, from: nat, mid: nat, n: nat)
    requires from <= mid <= n <= |ev|
    ensures Sites(ev, from, n) == Sites(ev, from, mid) + Sites(ev, mid, n)
    decreases n
  {
    if n > mid {
      SitesSplit(ev, from, mid, n - 1);
    }
  }

  // The annotations are those of the effect events, in order, each with the atoms that flow to it.
  ghost predicate Annotates(sch: Schemas, ev: seq<Event>, from: nat, anns: seq<EffectAnn>) {
    var sites := Sites(ev, from, |ev|);
    && |anns| == |sites|
    && forall m {:trigger anns[m]} :: 0 <= m < |anns| ==>
         sites[m] < |ev| && AnnotatesAt(sch, ev, sites[m], anns[m])
  }

  ghost predicate AnnotatesAt(sch: Schemas, ev: seq<Event>, i: nat, ann: EffectAnn)
    requires i < |ev|
  {
    && ev[i].kind == Acts(ann.verb)
    && forall a {:trigger Has(ann.effective, a)} :: Has(ann.effective, a) <==> FlowsTo(sch, ev, i, a)
  }

  lemma AnnotatesMore(sch: Schemas, ev: seq<Event>, more: seq<Event>, from: nat, first: seq<EffectAnn>,
                      second: seq<EffectAnn>)
    requires from <= |ev| && Annotates(sch, ev, from, first) && Annotates(sch, ev + more, |ev|, second)
    ensures Annotates(sch, ev + more, from, first + second)
  {
    hide FlowsTo, Has;
    var all, anns := ev + more, first + second;
    SitesSplit(all, from, |ev|, |all|);
    SitesSame(ev, more, from, |ev|);
    SitesBelow(ev, from, |ev|);
    var sites := Sites(all, from, |all|);
    forall m | 0 <= m < |anns|
      ensures sites[m] < |all| && AnnotatesAt(sch, all, sites[m], anns[m])
    {
      if m < |first| {
        assert anns[m] == first[m] && sites[m] == Sites(ev, from, |ev|)[m];
        assert AnnotatesAt(sch, ev, sites[m], first[m]);
        forall a
          ensures FlowsTo(sch, all, sites[m], a) <==> FlowsTo(sch, ev, sites[m], a)
        {
          FlowsToSame(sch, ev, more, sites[m], a);
        }
      } else {
        assert anns[m] == second[m - |first|];
      }
    }
  }

  // ----- one stretch of text -----

  // The walk accepts a stretch exactly when its events are in order; then its environment tracks
  // the flows, and its annotations are those of the stretch.
  ghost predicate Accounted(sch: Schemas, ev: seq<Event>, more: seq<Event>, out: Option<Labels>, anns: seq<EffectAnn>) {
    && (out.Some? <==> AllOk(sch, ev + more, |ev|))
    && (out.Some? ==> Tracks(sch, ev + more, out.value) && Annotates(sch, ev + more, |ev|, anns))
  }

  lemma Continues(sch: Schemas, ev: seq<Event>, m1: seq<Event>, out1: Option<Labels>, anns1: seq<EffectAnn>,
                  m2: seq<Event>, out2: Option<Labels>, anns2: seq<EffectAnn>)
    requires Accounted(sch, ev, m1, out1, anns1)
    requires out1.Some? ==> Accounted(sch, ev + m1, m2, out2, anns2)
    requires out1.None? ==> out2.None?
    ensures Accounted(sch, ev, m1 + m2, out2, anns1 + anns2)
  {
    hide AllOk, Tracks, Annotates;
    assert ev + (m1 + m2) == ev + m1 + m2;
    AllOkSplit(sch, ev + m1, m2, |ev|);
    if out2.Some? {
      AnnotatesMore(sch, ev + m1, m2, |ev|, anns1, anns2);
    }
  }

  // A binding or a test.
  lemma OneEvent(sch: Schemas, ev: seq<Event>, env: Labels, e: Event, l: Result<Label, AdmitError>)
    requires Tracks(sch, ev, env) && !e.kind.Acts? && e.around == []
    requires Derives(sch, env, e.own, PUBLIC, l)
    ensures Accounted(sch, ev, [e],
                      if l.Err? then None else if e.kind.Binds? then Some(env[e.kind.x := l.value]) else Some(env), [])
    ensures l.Ok? ==>
              forall a {:trigger Has(l.value, a)} :: Has(l.value, a) <==> FlowsIn(sch, ev + [e], Part(e.own, |ev|), a)
  {
    hide FlowsTo, FlowsIn, Has, Brings;
    var all := ev + [e];
    assert all[|ev|] == e;
    ReadingKnown(sch, ev, env, e.own);
    forall x
      ensures LastBefore(all, |ev|, x) == LastBefore(ev, |ev|, x)
    {
      LastSame(ev, [e], |ev|, x);
    }
    assert EventOk(sch, all, |ev|) <==> l.Ok?;
    if l.Ok? {
      forall a
        ensures Has(l.value, a) <==> FlowsIn(sch, all, Part(e.own, |ev|), a)
      {
        NothingPublic(a);
        ReadingFlows(sch, ev, env, e.own, a);
        FlowsInSame(sch, ev, [e], Part(e.own, |ev|), a);
      }
      OneTracks(sch, ev, env, e, l.value);
      assert Sites(all, |ev|, |ev|) == [] && Sites(all, |ev|, |all|) == [];
    }
  }

  lemma OneTracks(sch: Schemas, ev: seq<Event>, env: Labels, e: Event, l: Label)
    requires Tracks(sch, ev, env) && !e.kind.Acts? && e.around == []
    requires forall a {:trigger Has(l, a)} :: Has(l, a) <==> FlowsIn(sch, ev + [e], Part(e.own, |ev|), a)
    ensures Tracks(sch, ev + [e], if e.kind.Binds? then env[e.kind.x := l] else env)
  {
    hide FlowsIn, Has;
    var all, env2 := ev + [e], if e.kind.Binds? then env[e.kind.x := l] else env;
    assert all[|ev|] == e;
    forall x
      ensures LastBefore(all, |all|, x) == if e.kind == Binds(x) then Some(|ev|) else LastBefore(ev, |ev|, x)
    {
      LastSame(ev, [e], |ev|, x);
    }
    forall x, a | x in env2
      ensures Has(env2[x], a) <==> FlowsTo(sch, all, LastBefore(all, |all|, x).value, a)
    {
      if e.kind != Binds(x) {
        assert Has(env[x], a) <==> FlowsTo(sch, ev, LastBefore(ev, |ev|, x).value, a);
        FlowsToSame(sch, ev, [e], LastBefore(ev, |ev|, x).value, a);
      } else {
        assert Has(l, a) <==> FlowsIn(sch, all, Part(e.own, |ev|), a);
      }
    }
  }

  lemma EffectEvent(sch: Schemas, ev: seq<Event>, env: Labels, v: VerbId, args: seq<Expr>, pc: Label,
                    around: seq<Part>, mult: nat)
    requires Tracks(sch, ev, env) && TracksAround(sch, ev, around, pc)
    ensures var l := ArgsLabel(sch, env, args, pc);
            Accounted(sch, ev, StmtEvents(Effect(v, args), |ev|, around), LabelStmt(sch, env, Effect(v, args), pc),
                      if l.Ok? then [EffectAnn(v, l.value, mult)] else [])
  {
    hide FlowsTo, FlowsIn, Has, Brings, ArgsLabel, ArgsObserved, ArgsUsed;
    var l := ArgsLabel(sch, env, args, pc);
    var r := Reading(ArgsObserved(args), ArgsUsed(args));
    var e := Event(Acts(v), r, around);
    var all := ev + [e];
    assert all[|ev|] == e;
    ArgsDerive(sch, env, args, pc);
    ReadingKnown(sch, ev, env, r);
    forall x
      ensures LastBefore(all, |ev|, x) == LastBefore(ev, |ev|, x)
      ensures LastBefore(all, |all|, x) == LastBefore(ev, |ev|, x)
    {
      LastSame(ev, [e], |ev|, x);
    }
    forall a
      ensures l.Ok? ==> (Has(l.value, a) <==> FlowsTo(sch, all, |ev|, a))
    {
      EffectFlows(sch, ev, env, e, pc, l, a);
    }
    forall n
      ensures l.Ok? ==> (n in l.value.conf <==> FlowsTo(sch, all, |ev|, Secret(n)))
    {
      SecretHas(n, l);
    }
    EffectOk(sch, ev, env, v, e, l, pc);
    if LabelStmt(sch, env, Effect(v, args), pc).Some? {
      EffectTracks(sch, ev, env, e);
      assert Sites(all, |ev|, |ev|) == [] && Sites(all, |ev|, |all|) == [|ev|];
    }
  }

  lemma SecretHas(n: Name, l: Result<Label, AdmitError>)
    ensures l.Ok? ==> (n in l.value.conf <==> Has(l.value, Secret(n)))
  {
  }

  lemma EffectFlows(sch: Schemas, ev: seq<Event>, env: Labels, e: Event, pc: Label, l: Result<Label, AdmitError>,
                    a: Atom)
    requires Tracks(sch, ev, env) && TracksAround(sch, ev, e.around, pc) && Derives(sch, env, e.own, pc, l)
    ensures l.Ok? ==> (Has(l.value, a) <==> FlowsTo(sch, ev + [e], |ev|, a))
  {
    hide FlowsIn, Has, Brings;
    var all := ev + [e];
    assert all[|ev|] == e;
    if l.Ok? {
      assert Has(l.value, a) <==> Has(pc, a) || Brings(sch, env, e.own, a);
      ReadingFlows(sch, ev, env, e.own, a);
      FlowsInSame(sch, ev, [e], Part(e.own, |ev|), a);
      assert Has(pc, a) <==> SomeFlows(sch, ev, e.around, a);
      forall k | 0 <= k < |e.around|
        ensures FlowsIn(sch, all, e.around[k], a) <==> FlowsIn(sch, ev, e.around[k], a)
      {
        FlowsInSame(sch, ev, [e], e.around[k], a);
      }
    }
  }

  lemma EffectTracks(sch: Schemas, ev: seq<Event>, env: Labels, e: Event)
    requires Tracks(sch, ev, env) && e.kind.Acts?
    ensures Tracks(sch, ev + [e], env)
  {
    hide FlowsTo, Has;
    var all := ev + [e];
    assert all[|ev|] == e;
    forall x
      ensures LastBefore(all, |all|, x) == LastBefore(ev, |ev|, x)
    {
      LastSame(ev, [e], |ev|, x);
    }
    forall x, a | x in env
      ensures Has(env[x], a) <==> FlowsTo(sch, all, LastBefore(all, |all|, x).value, a)
    {
      FlowsToSame(sch, ev, [e], LastBefore(ev, |ev|, x).value, a);
    }
  }

  // The site is in order exactly when the verb is known, its arguments are, and nothing secret
  // reaches it from outside.
  lemma EffectOk(sch: Schemas, ev: seq<Event>, env: Labels, v: VerbId, e: Event, l: Result<Label, AdmitError>,
                 pc: Label)
    requires Tracks(sch, ev, env) && e.kind == Acts(v) && Derives(sch, env, e.own, pc, l)
    requires forall n :: l.Ok? ==> (n in l.value.conf <==> FlowsTo(sch, ev + [e], |ev|, Secret(n)))
    ensures EventOk(sch, ev + [e], |ev|) <==>
            v in sch.external && l.Ok? && !(sch.external[v] && l.value.conf != {})
  {
    hide FlowsTo, Has, Brings;
    var all := ev + [e];
    assert all[|ev|] == e;
    ReadingKnown(sch, ev, env, e.own);
    forall x
      ensures LastBefore(all, |ev|, x) == LastBefore(ev, |ev|, x)
    {
      LastSame(ev, [e], |ev|, x);
    }
  }

  // ----- the walk over a list -----

  lemma {:induction false} ListFlow(sch: Schemas, ev: seq<Event>, env: Labels, stmts: seq<Stmt>, pc: Label,
                                    around: seq<Part>, mult: nat)
    requires Tracks(sch, ev, env) && TracksAround(sch, ev, around, pc)
    ensures var out := LabelPass(sch, env, stmts, pc);
            Accounted(sch, ev, ListEvents(stmts, |ev|, around), out,
                      if out.Some? then Anns(sch, env, stmts, pc, mult) else [])
    decreases stmts, 0
  {
    hide Tracks, TracksAround, Accounted, LabelStmt, StmtAnns, StmtEvents;
    if stmts == [] {
      NothingHappens(sch, ev, env);
    } else {
      var n := |stmts| - 1;
      var front := ListEvents(stmts[..n], |ev|, around);
      var mid := LabelPass(sch, env, stmts[..n], pc);
      var out := LabelPass(sch, env, stmts, pc);
      ListFlow(sch, ev, env, stmts[..n], pc, around, mult);
      var first := if mid.Some? then Anns(sch, env, stmts[..n], pc, mult) else [];
      var last := [];
      if mid.Some? {
        TracksOn(sch, ev, front, mid, first);
        AroundStays(sch, ev, front, around, pc);
        StmtFlow(sch, ev + front, mid.value, stmts[n], pc, around, mult);
        if out.Some? {
          last := StmtAnns(sch, mid.value, stmts[n], pc, mult);
        }
      }
      Continues(sch, ev, front, mid, first, StmtEvents(stmts[n], |ev| + |front|, around), out, last);
      if out.None? {
        NoAnns(sch, ev, ListEvents(stmts, |ev|, around), first + last);
      }
    }
  }

  lemma NothingHappens(sch: Schemas, ev: seq<Event>, env: Labels)
    requires Tracks(sch, ev, env)
    ensures Accounted(sch, ev, [], Some(env), [])
  {
    hide Tracks;
    assert ev + [] == ev;
  }

  lemma TracksOn(sch: Schemas, ev: seq<Event>, more: seq<Event>, out: Option<Labels>, anns: seq<EffectAnn>)
    requires Accounted(sch, ev, more, out, anns) && out.Some?
    ensures Tracks(sch, ev + more, out.value)
  {
    hide Tracks;
  }

  // A refused stretch has no annotations to speak of.
  lemma NoAnns(sch: Schemas, ev: seq<Event>, more: seq<Event>, anns: seq<EffectAnn>)
    requires Accounted(sch, ev, more, None, anns)
    ensures Accounted(sch, ev, more, None, [])
  {
  }

  lemma {:induction false} StmtFlow(sch: Schemas, ev: seq<Event>, env: Labels, s: Stmt, pc: Label, around: seq<Part>,
                                    mult: nat)
    requires Tracks(sch, ev, env) && TracksAround(sch, ev, around, pc)
    ensures var out := LabelStmt(sch, env, s, pc);
            Accounted(sch, ev, StmtEvents(s, |ev|, around), out,
                      if out.Some? then StmtAnns(sch, env, s, pc, mult) else [])
    decreases s, 1
  {
    hide Tracks, TracksAround, Accounted, ExprLabel, ArgsLabel, Derives;
    match s {
      case Let(x, e) =>
        ExprDerives(sch, env, e);
        OneEvent(sch, ev, env, Event(Binds(x), ExprReading(e), []), ExprLabel(sch, env, e));
      case Effect(v, args) =>
        EffectEvent(sch, ev, env, v, args, pc, around, mult);
        if LabelStmt(sch, env, s, pc).None? {
          var l := ArgsLabel(sch, env, args, pc);
          NoAnns(sch, ev, StmtEvents(s, |ev|, around), if l.Ok? then [EffectAnn(v, l.value, mult)] else []);
        }
      case If(_, _, _) => IfFlow(sch, ev, env, s, pc, around, mult);
      case Foreach(_, _, _, _, _) => LoopFlow(sch, ev, env, s, pc, around, mult);
    }
  }

  lemma {:induction false} IfFlow(sch: Schemas, ev: seq<Event>, env: Labels, s: Stmt, pc: Label, around: seq<Part>,
                                  mult: nat)
    requires s.If? && Tracks(sch, ev, env) && TracksAround(sch, ev, around, pc)
    ensures var out := LabelStmt(sch, env, s, pc);
            Accounted(sch, ev, StmtEvents(s, |ev|, around), out,
                      if out.Some? then StmtAnns(sch, env, s, pc, mult) else [])
    decreases s, 0
  {
    hide Tracks, TracksAround, Accounted, GuardLabel, LabelPass, Anns, ListEvents, Derives, FlowsIn, Has;
    var r := Reading(GuardObserved(s.guard), GuardUsed(s.guard));
    var head := Event(Tests, r, []);
    var l := GuardLabel(sch, env, s.guard);
    var p := Part(r, |ev|);
    var inner := around + [p];
    var first := ListEvents(s.thenArm, |ev| + 1, inner);
    var second := ListEvents(s.elseArm, |ev| + 1 + |first|, inner);
    var out := LabelStmt(sch, env, s, pc);
    GuardDerives(sch, env, s.guard);
    OneEvent(sch, ev, env, head, l);
    if l.Err? {
      var none: seq<EffectAnn> := [];
      Continues(sch, ev, [head], None, none, first + second, None, none);
      assert none + none == none;
    } else {
      var pc2, ev1 := pc.Join(l.value), ev + [head];
      TracksOn(sch, ev, [head], Some(env), []);
      AroundStays(sch, ev, [head], around, pc);
      AroundGrows(sch, ev1, around, pc, p, l.value);
      ListFlow(sch, ev1, env, s.thenArm, pc2, inner, mult);
      var mid := LabelPass(sch, env, s.thenArm, pc2);
      var a1 := if mid.Some? then Anns(sch, env, s.thenArm, pc2, mult) else [];
      var a2 := [];
      if mid.Some? {
        TracksOn(sch, ev1, first, mid, a1);
        AroundStays(sch, ev1, first, inner, pc2);
        ListFlow(sch, ev1 + first, mid.value, s.elseArm, pc2, inner, mult);
        if out.Some? {
          a2 := Anns(sch, mid.value, s.elseArm, pc2, mult);
        }
      }
      Continues(sch, ev1, first, mid, a1, second, out, a2);
      Continues(sch, ev, [head], Some(env), [], first + second, out, a1 + a2);
      assert [] + (a1 + a2) == a1 + a2;
      if out.None? {
        NoAnns(sch, ev, StmtEvents(s, |ev|, around), a1 + a2);
      }
    }
  }

  lemma {:induction false} LoopFlow(sch: Schemas, ev: seq<Event>, env: Labels, s: Stmt, pc: Label, around: seq<Part>,
                                    mult: nat)
    requires s.Foreach? && Tracks(sch, ev, env) && TracksAround(sch, ev, around, pc)
    ensures var out := LabelStmt(sch, env, s, pc);
            Accounted(sch, ev, StmtEvents(s, |ev|, around), out,
                      if out.Some? then StmtAnns(sch, env, s, pc, mult) else [])
    decreases s, 0
  {
    hide Tracks, TracksAround, Accounted, ExprLabel, LabelPass, Anns, ListEvents, Derives, FlowsIn, Has, ExprReading;
    var r := ExprReading(s.list);
    var head := Event(Binds(s.item), r, []);
    var l := ExprLabel(sch, env, s.list);
    var p := Part(r, |ev|);
    var body := ListEvents(s.body, |ev| + 1, around + [p]);
    var out := LabelStmt(sch, env, s, pc);
    assert Derives(sch, env, r, PUBLIC, l) by { ListDerives(sch, env, s.list); }
    OneEvent(sch, ev, env, head, l);
    if l.Err? {
      var none: seq<EffectAnn> := [];
      Continues(sch, ev, [head], None, none, body, None, none);
      assert none + none == none;
    } else {
      var pc2, ev1, env1 := pc.Join(l.value), ev + [head], env[s.item := l.value];
      TracksOn(sch, ev, [head], Some(env1), []);
      AroundStays(sch, ev, [head], around, pc);
      AroundGrows(sch, ev1, around, pc, p, l.value);
      ListFlow(sch, ev1, env1, s.body, pc2, around + [p], mult * s.bound);
      var anns := if out.Some? then Anns(sch, env1, s.body, pc2, mult * s.bound) else [];
      Continues(sch, ev, [head], Some(env1), [], body, out, anns);
      assert [] + anns == anns;
    }
  }

  lemma ListDerives(sch: Schemas, env: Labels, list: Expr)
    ensures Derives(sch, env, ExprReading(list), PUBLIC, ExprLabel(sch, env, list))
  {
    ExprDerives(sch, env, list);
  }

  // ----- whole plans -----

  function Events(stmts: seq<Stmt>): seq<Event> {
    ListEvents(stmts, 0, [])
  }

  // The label pass accepts a plan exactly when every event of its text is in order; then the
  // annotations are those of its effect events, in order, and an atom is in one exactly when it
  // flows there.
  lemma PassExact(sch: Schemas, stmts: seq<Stmt>, mult: nat)
    ensures var out := LabelPass(sch, map[], stmts, PUBLIC);
            && (out.Some? <==> AllOk(sch, Events(stmts), 0))
            && (out.Some? ==> Annotates(sch, Events(stmts), 0, Anns(sch, map[], stmts, PUBLIC, mult)))
  {
    hide AllOk, Annotates, LabelPass, Anns;
    NothingTracked(sch);
    ListFlow(sch, [], map[], stmts, PUBLIC, [], mult);
    assert [] + Events(stmts) == Events(stmts);
  }

  lemma NothingTracked(sch: Schemas)
    ensures Tracks(sch, [], map[]) && TracksAround(sch, [], [], PUBLIC)
  {
    forall a
      ensures !Has(PUBLIC, a) && !SomeFlows(sch, [], [], a)
    {
      NothingPublic(a);
    }
  }
}
