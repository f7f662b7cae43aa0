// What a pool has room for, algebra by algebra, in terms of tokens, sums, points and shares.

module PoolRoom {
  import opened Prelude
  import opened Algebra
  import opened Auth
  import opened LedgerTypes
  import R = Ranges
  import A = Accounts

  // ----- tokens -----

  predicate AllTokens(claims: seq<Frag>) {
    forall i :: 0 <= i < |claims| ==> claims[i] == ExFrag(Token)
  }

  lemma {:induction false} TokensFit(capacity: Frag, claims: seq<Frag>)
    requires capacity == ExFrag(Token) && Uniform(Exclusive, claims)
    ensures Fits(capacity, claims) <==> AllTokens(claims) && |claims| <= 1
  {
    if |claims| > 1 {
      var n := |claims| - 1;
      assert claims == claims[..n] + [claims[n]];
      ComposeSnoc(Exclusive, claims[..n], claims[n]);
    }
  }

  // ----- names -----

  lemma {:induction false} ComposeNames(claims: seq<Frag>)
    requires Uniform(SetTag, claims) && claims != []
    ensures var all := Compose(SetTag, claims).value;
            all.SetFrag? && forall x :: x in all.names <==> exists i :: 0 <= i < |claims| && x in claims[i].names
  {
    var n := |claims| - 1;
    var front, all := claims[..n], Compose(SetTag, claims).value;
    assert claims == front + [claims[n]];
    ComposeSnoc(SetTag, front, claims[n]);
    if n > 0 {
      ComposeNames(front);
      forall x | x in all.names
        ensures exists i :: 0 <= i < |claims| && x in claims[i].names
      {
        if x !in claims[n].names {
          var i :| 0 <= i < |front| && x in front[i].names;
          assert claims[i] == front[i];
        }
      }
      forall x, i | 0 <= i < |claims| && x in claims[i].names
        ensures x in all.names
      {
        assert i < n ==> claims[i] == front[i];
      }
    }
  }

  lemma NamesFit(capacity: Frag, claims: seq<Frag>)
    requires capacity.SetFrag? && Uniform(SetTag, claims)
    ensures Fits(capacity, claims) <==> forall i :: 0 <= i < |claims| ==> claims[i].names <= capacity.names
  {
    if claims != [] {
      ComposeNames(claims);
    }
  }

  // ----- points -----

  ghost predicate HasPoint(f: Frag, x: nat) {
    f.RangeFrag? && R.In(x, f.ranges.spans)
  }

  predicate AllRanges(claims: seq<Frag>) {
    forall i :: 0 <= i < |claims| ==> claims[i].RangeFrag? && !claims[i].ranges.bot
  }

  ghost predicate NoSharedPoint(claims: seq<Frag>) {
    forall i, j, x: nat :: 0 <= i < j < |claims| ==> !(HasPoint(claims[i], x) && HasPoint(claims[j], x))
  }

  ghost predicate SomeHasPoint(claims: seq<Frag>, x: nat) {
    exists i :: 0 <= i < |claims| && HasPoint(claims[i], x)
  }

  lemma {:induction false} ComposePoints(claims: seq<Frag>)
    requires Uniform(RangeTag, claims) && claims != []
    ensures var all := Compose(RangeTag, claims).value;
            && all.RangeFrag?
            && (!all.ranges.bot <==> AllRanges(claims) && NoSharedPoint(claims))
            && (!all.ranges.bot ==> forall x: nat :: HasPoint(all, x) <==> SomeHasPoint(claims, x))
  {
    var n := |claims| - 1;
    var front, last := claims[..n], claims[n];
    assert claims == front + [last];
    ComposeSnoc(RangeTag, front, last);
    if n > 0 {
      ComposePoints(front);
      var acc := Compose(RangeTag, front).value;
      R.JoinExact(acc.ranges.spans, last.ranges.spans);
      SharedPointSnoc(front, last);
      if !acc.ranges.bot {
        SeparateExact(acc, front, last);
      }
      assert AllRanges(claims) <==> AllRanges(front) && AllRanges([last]);
      forall x: nat
        ensures SomeHasPoint(claims, x) <==> SomeHasPoint(front, x) || HasPoint(last, x)
      {
        SomePointSnoc(front, last, x);
      }
    } else {
      assert claims == [last];
      forall x: nat
        ensures SomeHasPoint(claims, x) <==> HasPoint(last, x)
      {
        assert HasPoint(claims[0], x) == HasPoint(last, x);
      }
    }
  }

  lemma SeparateExact(acc: Frag, front: seq<Frag>, last: Frag)
    requires acc.RangeFrag? && last.RangeFrag?
    requires forall x: nat :: HasPoint(acc, x) <==> SomeHasPoint(front, x)
    ensures R.Separate(acc.ranges.spans, last.ranges.spans) <==>
            forall x: nat :: !(SomeHasPoint(front, x) && HasPoint(last, x))
  {
    hide SomeHasPoint, R.In;
    forall x: nat
      ensures R.In(x, acc.ranges.spans) <==> SomeHasPoint(front, x)
      ensures R.In(x, last.ranges.spans) <==> HasPoint(last, x)
    {
      assert HasPoint(acc, x) <==> SomeHasPoint(front, x);
    }
  }

  lemma SomePointSnoc(front: seq<Frag>, last: Frag, x: nat)
    ensures SomeHasPoint(front + [last], x) <==> SomeHasPoint(front, x) || HasPoint(last, x)
  {
    var claims := front + [last];
    assert claims[|front|] == last;
    if SomeHasPoint(front, x) {
      var i :| 0 <= i < |front| && HasPoint(front[i], x);
      assert claims[i] == front[i];
    }
  }

  lemma SharedPointSnoc(front: seq<Frag>, last: Frag)
    ensures NoSharedPoint(front + [last]) <==>
            NoSharedPoint(front) && forall x: nat :: !(SomeHasPoint(front, x) && HasPoint(last, x))
  {
    var claims := front + [last];
    if NoSharedPoint(claims) {
      forall i, j, x: nat | 0 <= i < j < |front|
        ensures !(HasPoint(front[i], x) && HasPoint(front[j], x))
      {
        assert claims[i] == front[i] && claims[j] == front[j];
      }
      forall x: nat
        ensures !(SomeHasPoint(front, x) && HasPoint(last, x))
      {
        if SomeHasPoint(front, x) {
          var i :| 0 <= i < |front| && HasPoint(front[i], x);
          assert claims[i] == front[i] && claims[|front|] == last;
        }
      }
    }
    if NoSharedPoint(front) && forall x: nat :: !(SomeHasPoint(front, x) && HasPoint(last, x)) {
      forall i, j, x: nat | 0 <= i < j < |claims|
        ensures !(HasPoint(claims[i], x) && HasPoint(claims[j], x))
      {
        assert HasPoint(claims[i], x) ==> SomeHasPoint(front, x);
      }
    }
  }

  lemma PointsFit(capacity: Frag, claims: seq<Frag>)
    requires capacity.RangeFrag? && !capacity.ranges.bot && Uniform(RangeTag, claims)
    ensures Fits(capacity, claims) <==>
            && AllRanges(claims) && NoSharedPoint(claims)
            && forall i, x: nat :: 0 <= i < |claims| && HasPoint(claims[i], x) ==> HasPoint(capacity, x)
  {
    if claims != [] {
      ComposePoints(claims);
      var all := Compose(RangeTag, claims).value;
      if !all.ranges.bot {
        WithinPoints(all, capacity);
        forall x: nat | HasPoint(all, x)
          ensures exists i :: 0 <= i < |claims| && HasPoint(claims[i], x)
        {
          assert SomeHasPoint(claims, x);
        }
        forall i, x: nat | 0 <= i < |claims| && HasPoint(claims[i], x)
          ensures HasPoint(all, x)
        {
          assert SomeHasPoint(claims, x);
        }
      }
    }
  }

  lemma WithinPoints(a: Frag, b: Frag)
    requires a.RangeFrag? && b.RangeFrag? && !a.ranges.bot && !b.ranges.bot
    ensures Within(a, b) <==> forall x: nat :: HasPoint(a, x) ==> HasPoint(b, x)
  {
    hide R.In;
    R.CoverageExact(a.ranges.spans, b.ranges.spans);
    forall x: nat
      ensures HasPoint(a, x) == R.In(x, a.ranges.spans) && HasPoint(b, x) == R.In(x, b.ranges.spans)
    {
    }
  }

  // ----- shares -----

  function Share(f: Frag): real {
    if f.FracFrag? && f.frac.q.Some? then f.frac.q.value else 0.0
  }

  function Shares(claims: seq<Frag>): real {
    if claims == [] then 0.0 else Shares(claims[..|claims| - 1]) + Share(claims[|claims| - 1])
  }

  predicate AllShares(claims: seq<Frag>) {
    forall i :: 0 <= i < |claims| ==> claims[i].FracFrag? && claims[i].frac.q.Some?
  }

  lemma {:induction false} ComposeShares(claims: seq<Frag>)
    requires Uniform(FracTag, claims) && claims != []
    ensures var all := Compose(FracTag, claims).value;
            && all.FracFrag? && (AllShares(claims) ==> Shares(claims) > 0.0)
            && (all.frac.q.Some? <==> AllShares(claims) && Shares(claims) <= 1.0)
            && (all.frac.q.Some? ==> all.frac.q.value == Shares(claims))
  {
    var n := |claims| - 1;
    var front, last := claims[..n], claims[n];
    assert claims == front + [last];
    ComposeSnoc(FracTag, front, last);
    assert AllShares(claims) <==> AllShares(front) && AllShares([last]);
    if n > 0 {
      ComposeShares(front);
    } else {
      assert front == [] && Shares(front) == 0.0;
    }
  }

  lemma SharesFit(capacity: Frag, claims: seq<Frag>)
    requires capacity.FracFrag? && capacity.frac.q.Some? && Uniform(FracTag, claims)
    ensures Fits(capacity, claims) <==> AllShares(claims) && Shares(claims) <= capacity.frac.q.value
  {
    if claims != [] {
      ComposeShares(claims);
    }
  }

  // ----- every algebra -----

  // One token at most; a sum within the count; names within the set, which may overlap; points
  // within the ranges, which may not; shares that add up to at most the whole.
  ghost predicate Room(capacity: Frag, claims: seq<Frag>) {
    match capacity
    case ExFrag(_) => AllTokens(claims) && |claims| <= 1
    case CountFrag(c) => A.AllCounts(claims) && c.Value? && A.Total(claims) <= c.n
    case SetFrag(names) => forall i :: 0 <= i < |claims| ==> claims[i].SetFrag? && claims[i].names <= names
    case RangeFrag(_) =>
      && AllRanges(claims) && NoSharedPoint(claims)
      && forall i, x: nat :: 0 <= i < |claims| && HasPoint(claims[i], x) ==> HasPoint(capacity, x)
    case FracFrag(q) => AllShares(claims) && q.q.Some? && Shares(claims) <= q.q.value
  }

  // The gate of every pool: whatever the algebra, claims fit exactly when there is room for them.
  lemma FitsExact(capacity: ValidFrag, claims: seq<Frag>)
    ensures Fits(capacity, claims) <==> Room(capacity, claims)
  {
    if Room(capacity, claims) {
      RoomUniform(capacity, claims);
    }
    if Uniform(capacity.Tag(), claims) {
      match capacity {
        case ExFrag(_) => TokensFit(capacity, claims);
        case CountFrag(c) => CountsFit(c.n, claims);
        case SetFrag(_) => NamesFit(capacity, claims);
        case RangeFrag(_) => PointsFit(capacity, claims);
        case FracFrag(_) => SharesFit(capacity, claims);
      }
    }
  }

  lemma RoomUniform(capacity: Frag, claims: seq<Frag>)
    requires Room(capacity, claims)
    ensures Uniform(capacity.Tag(), claims)
  {
  }

  // One invalid count spoils the whole composition.
  lemma {:induction false} InvalidCount(claims: seq<Frag>)
    requires Uniform(Counted, claims) && !A.AllCounts(claims)
    ensures claims != [] && Compose(Counted, claims) == Some(CountFrag(Invalid))
  {
    var n := |claims| - 1;
    assert claims == claims[..n] + [claims[n]];
    ComposeSnoc(Counted, claims[..n], claims[n]);
    if claims[n].count.Value? {
      InvalidCount(claims[..n]);
    }
  }

  lemma CountsFit(capacity: U64, claims: seq<Frag>)
    requires Uniform(Counted, claims)
    ensures Fits(CountFrag(Value(capacity)), claims) <==> A.AllCounts(claims) && A.Total(claims) <= capacity
  {
    if A.AllCounts(claims) {
      A.CountsFit(capacity, claims);
    } else {
      InvalidCount(claims);
    }
  }
}
