// The five built-in resource algebras and the closed sum of their elements.
// `Op` is total: an invalid composition is an explicit element.

module Algebra {
  import opened Prelude
  import R = Ranges

  datatype Ex = Token | ExBot {
    function Op(other: Ex): Ex { ExBot }
    predicate Valid() { Token? }
    function PCore(): Option<Ex> { if Token? then None else Some(ExBot) }
    predicate IncludedIn(b: Ex) { b.ExBot? }
  }

  // Bounded counts: u64 overflow is an absorbing invalid element.
  datatype Count = Value(n: U64) | Invalid {
    function Op(other: Count): Count {
      if Value? && other.Value? && n + other.n <= U64_MAX then Value(n + other.n) else Invalid
    }
    predicate Valid() { Value? }
    function PCore(): Option<Count> { Some(Value(0)) }
    predicate IncludedIn(b: Count) {
      b.Invalid? || (Value? && n <= b.n)
    }
  }

  datatype RawRanges = RawRanges(spans: seq<R.Span>, bot: bool) {
    predicate WellFormed() {
      && R.Canonical(spans)
      && (bot ==> spans == [])
      && forall i :: 0 <= i < |spans| ==> spans[i].hi <= U64_MAX
    }
    predicate Valid() { !bot }
    function PCore(): Option<RawRanges> { Some(RawRanges([], false)) }
    predicate IncludedIn(b: RawRanges) {
      b.bot || (!bot && R.CoveredBy(spans, b.spans))
    }
    function Op(other: RawRanges): RawRanges {
      if bot || other.bot then RawRanges([], true)
      else
        match R.Normal(spans + other.spans)
        case Some(v) => RawRanges(v, false)
        case None => RawRanges([], true)
    }
  }
  type RangeSet = r: RawRanges | r.WellFormed() witness RawRanges([], false)

  lemma RangesOpWellFormed(a: RangeSet, b: RangeSet)
    ensures a.Op(b).WellFormed()
  {
    if !a.bot && !b.bot {
      R.JoinExact(a.spans, b.spans);
      R.BoundedPoints(a.spans);
      R.BoundedPoints(b.spans);
      var r := R.Normal(a.spans + b.spans);
      if r.Some? {
        forall i | 0 <= i < |r.value|
          ensures r.value[i].hi <= U64_MAX
        {
          assert R.Covers(r.value[i], r.value[i].hi - 1);
          assert R.In(r.value[i].hi - 1, r.value);
        }
      }
    }
  }

  // Exact positive fractions up to one; `None` is the absorbing invalid element.
  datatype RawFrac = RawFrac(q: Option<real>) {
    predicate WellFormed() { q.Some? ==> 0.0 < q.value <= 1.0 }
    function Op(other: RawFrac): RawFrac {
      if q.Some? && other.q.Some? then FromRatio(q.value + other.q.value) else RawFrac(None)
    }
    predicate Valid() { q.Some? }
    function PCore(): Option<RawFrac> { if Valid() then None else Some(RawFrac(None)) }
    predicate IncludedIn(b: RawFrac) {
      b.q.None? || (q.Some? && q.value < b.q.value)
    }
  }
  type Frac = f: RawFrac | f.WellFormed() witness RawFrac(None)

  function FromRatio(q: real): Frac {
    if 0.0 < q <= 1.0 then RawFrac(Some(q)) else RawFrac(None)
  }

  datatype AlgebraTag = Exclusive | Counted | SetTag | RangeTag | FracTag

  datatype Frag =
    | ExFrag(ex: Ex)
    | CountFrag(count: Count)
    | SetFrag(names: set<Name>)
    | RangeFrag(ranges: RangeSet)
    | FracFrag(frac: Frac)
  {
    function Tag(): AlgebraTag {
      match this
      case ExFrag(_) => Exclusive
      case CountFrag(_) => Counted
      case SetFrag(_) => SetTag
      case RangeFrag(_) => RangeTag
      case FracFrag(_) => FracTag
    }

    // None is an algebra mismatch.
    function Op(other: Frag): (r: Option<Frag>)
      ensures r.Some? <==> Tag() == other.Tag()
      ensures r.Some? ==> r.value.Tag() == Tag()
    {
      match (this, other)
      case (ExFrag(a), ExFrag(b)) => Some(ExFrag(a.Op(b)))
      case (CountFrag(a), CountFrag(b)) => Some(CountFrag(a.Op(b)))
      case (SetFrag(a), SetFrag(b)) => Some(SetFrag(a + b))
      case (RangeFrag(a), RangeFrag(b)) =>
        RangesOpWellFormed(a, b);
        Some(RangeFrag(a.Op(b)))
      case (FracFrag(a), FracFrag(b)) => Some(FracFrag(a.Op(b)))
      case _ => None
    }

    predicate Valid() {
      match this
      case ExFrag(a) => a.Valid()
      case CountFrag(a) => a.Valid()
      case SetFrag(_) => true
      case RangeFrag(a) => a.Valid()
      case FracFrag(a) => a.Valid()
    }

    function PCore(): Option<Frag> {
      match this
      case ExFrag(a) => (match a.PCore() case Some(c) => Some(ExFrag(c)) case None => None)
      case CountFrag(a) => Some(CountFrag(Value(0)))
      case SetFrag(_) => Some(this)
      case RangeFrag(a) => Some(RangeFrag(RawRanges([], false)))
      case FracFrag(a) => if a.Valid() then None else Some(FracFrag(RawFrac(None)))
    }

    predicate IncludedIn(b: Frag) {
      match (this, b)
      case (ExFrag(x), ExFrag(y)) => x.IncludedIn(y)
      case (CountFrag(x), CountFrag(y)) => x.IncludedIn(y)
      case (SetFrag(x), SetFrag(y)) => x <= y
      case (RangeFrag(x), RangeFrag(y)) => x.IncludedIn(y)
      case (FracFrag(x), FracFrag(y)) => x.IncludedIn(y)
      case _ => false
    }
  }

  // The composition of two elements of one algebra.
  function Dot(a: Frag, b: Frag): (r: Frag)
    requires a.Tag() == b.Tag()
    ensures r.Tag() == a.Tag()
  {
    a.Op(b).value
  }

  lemma DotCommutes(a: Frag, b: Frag)
    requires a.Tag() == b.Tag()
    ensures Dot(a, b) == Dot(b, a)
  {
    if a.RangeFrag? {
      R.JoinCommutes(a.ranges.spans, b.ranges.spans);
    }
  }

  lemma DotAssociates(a: Frag, b: Frag, c: Frag)
    requires a.Tag() == b.Tag() == c.Tag()
    ensures Dot(Dot(a, b), c) == Dot(a, Dot(b, c))
  {
    match a {
      case RangeFrag(x) =>
        RangesAssociate(x, b.ranges, c.ranges);
      case SetFrag(x) =>
        assert (x + b.names) + c.names == x + (b.names + c.names);
      case _ =>
    }
  }

  lemma RangesAssociate(a: RangeSet, b: RangeSet, c: RangeSet)
    ensures a.Op(b).Op(c) == a.Op(b.Op(c))
  {
    if !a.bot && !b.bot && !c.bot {
      R.JoinAssociates(a.spans, b.spans, c.spans);
    }
  }

  // Validity is downward closed.
  lemma DotValidLeft(a: Frag, b: Frag)
    requires a.Tag() == b.Tag() && Dot(a, b).Valid()
    ensures a.Valid() && b.Valid()
  {
  }

  // Inclusion is exactly algebraic: a ≼ b iff b = a · c for some c of the algebra.
  lemma InclusionExact(a: Frag, b: Frag)
    requires a.Tag() == b.Tag()
    ensures a.IncludedIn(b) <==> exists c: Frag :: c.Tag() == a.Tag() && Dot(a, c) == b
  {
    if a.IncludedIn(b) {
      var c := InclusionWitness(a, b);
      assert c.Tag() == a.Tag() && Dot(a, c) == b;
    }
    forall c: Frag | c.Tag() == a.Tag() && Dot(a, c) == b
      ensures a.IncludedIn(b)
    {
      if a.RangeFrag? && !b.ranges.bot {
        R.JoinExact(a.ranges.spans, c.ranges.spans);
        R.CoverageExact(a.ranges.spans, b.ranges.spans);
      }
    }
  }

  lemma InclusionWitness(a: Frag, b: Frag) returns (c: Frag)
    requires a.Tag() == b.Tag() && a.IncludedIn(b)
    ensures c.Tag() == a.Tag() && Dot(a, c) == b
  {
    match a {
      case ExFrag(x) => c := ExFrag(ExBot);
      case CountFrag(x) =>
        c := if b.count.Invalid? then CountFrag(Invalid) else CountFrag(Value(b.count.n - x.n));
      case SetFrag(x) =>
        c := b;
        assert x + b.names == b.names;
      case RangeFrag(x) =>
        if b.ranges.bot {
          c := b;
        } else {
          var spans := R.CoverageHasComplement(x.spans, b.ranges.spans);
          c := RangeFrag(RawRanges(spans, false));
        }
      case FracFrag(x) =>
        c := if b.frac.q.None? then b else FracFrag(RawFrac(Some(b.frac.q.value - x.q.value)));
    }
  }

  // The three laws of the partial core.
  lemma CoreLaws(a: Frag, b: Frag)
    requires a.Tag() == b.Tag()
    ensures a.PCore().Some? ==> a.PCore().value.Tag() == a.Tag() && Dot(a.PCore().value, a) == a
    ensures a.PCore().Some? ==> a.PCore().value.PCore() == a.PCore()
    ensures a.PCore().Some? && a.IncludedIn(b) ==>
              b.PCore().Some? && a.PCore().value.IncludedIn(b.PCore().value)
  {
    match a {
      case ExFrag(_) =>
      case CountFrag(c) => ZeroIsUnit(c);
      case SetFrag(x) => assert x + x == x;
      case RangeFrag(x) => EmptyIsUnit(x);
      case FracFrag(_) =>
    }
  }

  lemma ZeroIsUnit(c: Count)
    ensures Value(0).Op(c) == c
  {
    if c.Value? {
      assert 0 + c.n <= U64_MAX;
    }
  }

  lemma EmptyIsUnit(x: RangeSet)
    ensures RawRanges([], false).Op(x) == x
  {
    R.JoinExact([], x.spans);
    if !x.bot {
      R.CanonicalUnique(R.Normal([] + x.spans).value, x.spans);
    }
  }

  // ----- inclusion lifted to options: reflexive even where the algebra has no unit -----

  predicate Within(a: Frag, b: Frag) {
    a == b || a.IncludedIn(b)
  }

  lemma PartIncluded(a: Frag, b: Frag)
    requires a.Tag() == b.Tag()
    ensures a.IncludedIn(Dot(a, b))
  {
    hide Dot, Frag.IncludedIn;
    var whole := Dot(a, b);
    assert exists c: Frag :: c.Tag() == a.Tag() && Dot(a, c) == whole;
    InclusionExact(a, whole);
  }

  lemma WithinDot(a: Frag, b: Frag)
    requires a.Tag() == b.Tag()
    ensures Within(a, Dot(a, b)) && Within(b, Dot(a, b))
  {
    hide Dot, Frag.IncludedIn;
    PartIncluded(a, b);
    DotCommutes(a, b);
    PartIncluded(b, a);
  }

  lemma WithinTransitive(a: Frag, b: Frag, c: Frag)
    requires Within(a, b) && Within(b, c)
    ensures Within(a, c)
  {
    if a.RangeFrag? && a != b && b != c && !c.ranges.bot && !b.ranges.bot && !a.ranges.bot {
      R.CoverageExact(a.ranges.spans, b.ranges.spans);
      R.CoverageExact(b.ranges.spans, c.ranges.spans);
      R.CoverageExact(a.ranges.spans, c.ranges.spans);
    }
  }
}
