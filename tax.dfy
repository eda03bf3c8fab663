/** Marginal (progressive) income tax over an ordered table of tiers.

    A tier table lists cumulative upper bounds in ascending order, the last
    one unbounded, each with the marginal rate applied to the slice of income
    that falls between the previous bound and its own. The payroll engine
    walks the table in a loop (index.tsx:217-230); `TaxFrom` is the
    specification of that walk, the sum over tiers of slice times rate, and
    `TierLoop` is the loop itself. */
module Tax {

  /** Upper bound of a tier: a finite amount, or no bound at all (the
      source's `Infinity`). */
  datatype Bound = UpTo(limit: real) | NoLimit

  datatype Tier = Tier(max: Bound, rate: real)

  /** Bounds strictly increase from `lower`, and only the last tier is
      unbounded. */
  predicate BoundsAscend(tiers: seq<Tier>, lower: real)
    decreases |tiers|
  {
    && |tiers| > 0
    && if |tiers| == 1 then tiers[0].max.NoLimit?
       else
         && tiers[0].max.UpTo?
         && lower < tiers[0].max.limit
         && BoundsAscend(tiers[1..], tiers[0].max.limit)
  }

  /** Every rate is strictly greater than the ones before it. */
  predicate RatesRise(tiers: seq<Tier>)
  {
    forall i, j :: 0 <= i < j < |tiers| ==> tiers[i].rate < tiers[j].rate
  }

  /** A well-formed progressive table whose first tier starts at `lower`. */
  predicate Progressive(tiers: seq<Tier>, lower: real)
  {
    BoundsAscend(tiers, lower) && 0.0 < tiers[0].rate && RatesRise(tiers)
  }

  /** The highest marginal rate, that of the unbounded tier. */
  function TopRate(tiers: seq<Tier>): real
    requires |tiers| > 0
  {
    tiers[|tiers| - 1].rate
  }

  /** `Math.max(0, x - lower)`: how much of `x` lies above `lower`. */
  function Above(x: real, lower: real): real
  {
    if x - lower < 0.0 then 0.0 else x - lower
  }

  /** The part of income `x` that falls in the tier from `lower` up to
      `upper`. */
  function Slice(x: real, lower: real, upper: Bound): real
    requires upper.UpTo? ==> lower < upper.limit
  {
    match upper
    case NoLimit => Above(x, lower)
    case UpTo(m) => if Above(x, lower) < m - lower then Above(x, lower) else m - lower
  }

  /** The slice of income `x` in each tier, the first tier starting at
      `lower`. */
  function Slices(tiers: seq<Tier>, x: real, lower: real): (s: seq<real>)
    requires BoundsAscend(tiers, lower)
    ensures |s| == |tiers|
    decreases |tiers|
  {
    [Slice(x, lower, tiers[0].max)]
    + if |tiers| == 1 then [] else Slices(tiers[1..], x, tiers[0].max.limit)
  }

  function Sum(s: seq<real>): real
  {
    if s == [] then 0.0 else s[0] + Sum(s[1..])
  }

  /** Each amount of `s` charged at the rate of the matching tier. */
  function Weighted(tiers: seq<Tier>, s: seq<real>): real
    requires |s| == |tiers|
    decreases |s|
  {
    if s == [] then 0.0 else s[0] * tiers[0].rate + Weighted(tiers[1..], s[1..])
  }

  /** Tax on income `x`: the sum over tiers of the slice of `x` in the tier
      times the tier's rate. */
  function TaxFrom(tiers: seq<Tier>, x: real, lower: real): real
    requires BoundsAscend(tiers, lower)
  {
    Weighted(tiers, Slices(tiers, x, lower))
  }

  /** The lower bound of tier `k`. */
  function LowerOf(tiers: seq<Tier>, lower: real, k: nat): real
    requires BoundsAscend(tiers, lower)
    requires k < |tiers|
  {
    if k == 0 then lower
    else
      BoundedBelowLast(tiers, lower, k - 1);
      tiers[k - 1].max.limit
  }

  /** The tax on the first `k` tiers when each is filled to its bound. */
  function FullTax(tiers: seq<Tier>, lower: real, k: nat): real
    requires BoundsAscend(tiers, lower)
    requires k < |tiers|
    decreases k
  {
    if k == 0 then 0.0
    else (tiers[0].max.limit - lower) * tiers[0].rate
         + FullTax(tiers[1..], tiers[0].max.limit, k - 1)
  }

  /** Every tier but the last has a finite bound above `lower`, and above
      the bound before it. */
  lemma {:induction false} BoundedBelowLast(tiers: seq<Tier>, lower: real, k: nat)
    requires BoundsAscend(tiers, lower)
    requires k < |tiers| - 1
    ensures tiers[k].max.UpTo?
    ensures lower < tiers[k].max.limit
    ensures k > 0 ==> tiers[k - 1].max.UpTo? && tiers[k - 1].max.limit < tiers[k].max.limit
    decreases k
  {
    if k > 0 {
      BoundedBelowLast(tiers[1..], tiers[0].max.limit, k - 1);
    }
  }

  /** The last tier is unbounded. */
  lemma {:induction false} LastUnbounded(tiers: seq<Tier>, lower: real)
    requires BoundsAscend(tiers, lower)
    ensures tiers[|tiers| - 1].max.NoLimit?
    decreases |tiers|
  {
    if |tiers| > 1 {
      LastUnbounded(tiers[1..], tiers[0].max.limit);
    }
  }

  /** One step of the walk: the first tier's slice at its rate, plus the
      tax charged by the tiers after it. */
  lemma TaxFromUnfold(tiers: seq<Tier>, x: real, lower: real)
    requires BoundsAscend(tiers, lower)
    ensures TaxFrom(tiers, x, lower)
            == Slice(x, lower, tiers[0].max) * tiers[0].rate
               + if |tiers| == 1 then 0.0 else TaxFrom(tiers[1..], x, tiers[0].max.limit)
  {
    var s := Slices(tiers, x, lower);
    assert s[0] == Slice(x, lower, tiers[0].max);
    if |tiers| > 1 {
      assert s[1..] == Slices(tiers[1..], x, tiers[0].max.limit);
    } else {
      assert s[1..] == [];
      assert Weighted(tiers[1..], s[1..]) == 0.0;
    }
    assert TaxFrom(tiers, x, lower) == s[0] * tiers[0].rate + Weighted(tiers[1..], s[1..]);
  }

  /** The slices partition the income: they add up to all of the income
      above the first bound, so the unbounded last tier absorbs whatever the
      bounded ones leave. */
  lemma {:induction false} SlicesPartition(tiers: seq<Tier>, x: real, lower: real)
    requires BoundsAscend(tiers, lower)
    ensures Sum(Slices(tiers, x, lower)) == Above(x, lower)
    decreases |tiers|
  {
    var s := Slices(tiers, x, lower);
    if |tiers| > 1 {
      var m := tiers[0].max.limit;
      assert s[1..] == Slices(tiers[1..], x, m);
      SlicesPartition(tiers[1..], x, m);
    }
  }

  /** Every slice grows with income. */
  lemma {:induction false} SlicesGrow(tiers: seq<Tier>, x: real, y: real, lower: real)
    requires BoundsAscend(tiers, lower)
    requires x <= y
    ensures GrowsPointwise(Slices(tiers, x, lower), Slices(tiers, y, lower))
    decreases |tiers|
  {
    var sx, sy := Slices(tiers, x, lower), Slices(tiers, y, lower);
    if |tiers| > 1 {
      SlicesGrow(tiers[1..], x, y, tiers[0].max.limit);
      assert sx[1..] == Slices(tiers[1..], x, tiers[0].max.limit);
      assert sy[1..] == Slices(tiers[1..], y, tiers[0].max.limit);
    } else {
      assert sx[1..] == [] && sy[1..] == [];
    }
  }

  /** Scaling by a non-negative factor keeps order. */
  lemma ScaleLe(t: real, a: real, b: real)
    requires 0.0 <= t && a <= b
    ensures t * a <= t * b
  {
  }

  /** `t` distributes over a sum. */
  lemma Distribute(t: real, a: real, b: real, c: real)
    requires a == b + c
    ensures t * a == t * b + t * c
  {
  }

  /** An amount growing from `a` to `b`, charged at a rate between 0 and
      `top`, raises the charge by between 0 and `top` times its growth. */
  lemma ChargeGrowth(a: real, b: real, r: real, top: real)
    requires a <= b && 0.0 <= r <= top
    ensures 0.0 <= b * r - a * r <= top * (b - a)
  {
    assert b * r - a * r == r * (b - a);
    ScaleLe(b - a, r, top);
    ScaleLe(r, 0.0, b - a);
  }

  /** Every rate lies between 0 and `top`. */
  predicate RatesWithin(tiers: seq<Tier>, top: real)
    decreases |tiers|
  {
    tiers == [] || (0.0 <= tiers[0].rate <= top && RatesWithin(tiers[1..], top))
  }

  /** `sy` is at least `sx`, element by element. */
  predicate GrowsPointwise(sx: seq<real>, sy: seq<real>)
    decreases |sx|
  {
    |sx| == |sy| && (sx == [] || (sx[0] <= sy[0] && GrowsPointwise(sx[1..], sy[1..])))
  }

  /** Amounts that grow pointwise, charged at rates between 0 and `top`,
      raise the charge by at least 0 and at most `top` times their growth. */
  lemma {:induction false} WeightedGrowth(tiers: seq<Tier>, sx: seq<real>, sy: seq<real>, top: real)
    requires |sx| == |tiers|
    requires RatesWithin(tiers, top) && GrowsPointwise(sx, sy)
    ensures 0.0 <= Weighted(tiers, sy) - Weighted(tiers, sx) <= top * (Sum(sy) - Sum(sx))
    decreases |tiers|
  {
    if tiers != [] {
      WeightedGrowth(tiers[1..], sx[1..], sy[1..], top);
      var r := tiers[0].rate;
      ChargeGrowth(sx[0], sy[0], r, top);
      Distribute(top, Sum(sy) - Sum(sx), sy[0] - sx[0], Sum(sy[1..]) - Sum(sx[1..]));
    }
  }

  /** Every rate of a progressive table lies between 0 and the top rate. */
  lemma RatesBelowTop(tiers: seq<Tier>, lower: real)
    requires Progressive(tiers, lower)
    ensures RatesWithin(tiers, TopRate(tiers))
  {
    RatesWithinAll(tiers, TopRate(tiers));
  }

  lemma {:induction false} RatesWithinAll(tiers: seq<Tier>, top: real)
    requires forall i :: 0 <= i < |tiers| ==> 0.0 <= tiers[i].rate <= top
    ensures RatesWithin(tiers, top)
    decreases |tiers|
  {
    if tiers != [] {
      RatesWithinAll(tiers[1..], top);
    }
  }

  /** The tax grows by at least 0 and at most the top rate times the growth
      `ds` of the slices, which is no more than the growth of the income. */
  lemma TaxGrowthBySlices(tiers: seq<Tier>, x: real, y: real, lower: real) returns (ds: real)
    requires Progressive(tiers, lower)
    requires x <= y
    ensures 0.0 <= TopRate(tiers) && ds <= y - x
    ensures 0.0 <= TaxFrom(tiers, y, lower) - TaxFrom(tiers, x, lower) <= TopRate(tiers) * ds
  {
    var sx, sy := Slices(tiers, x, lower), Slices(tiers, y, lower);
    ds := Sum(sy) - Sum(sx);
    SlicesGrow(tiers, x, y, lower);
    RatesBelowTop(tiers, lower);
    WeightedGrowth(tiers, sx, sy, TopRate(tiers));
    SlicesPartition(tiers, x, lower);
    SlicesPartition(tiers, y, lower);
  }

  /** A difference bounded by `t` times `a`, for `0 <= t` and `a <= b`, is
      bounded by `t` times `b`. */
  lemma BoundByScale(d: real, t: real, a: real, b: real)
    requires 0.0 <= t && a <= b && d <= t * a
    ensures d <= t * b
  {
    ScaleLe(t, a, b);
  }

  /** Tax never decreases with income, and it is continuous: extra income
      `y - x` raises it by at most the top rate times `y - x`, so there is
      no jump anywhere. */
  lemma TaxFromContinuous(tiers: seq<Tier>, x: real, y: real, lower: real)
    requires Progressive(tiers, lower)
    requires x <= y
    ensures 0.0 <= TaxFrom(tiers, y, lower) - TaxFrom(tiers, x, lower)
    ensures TaxFrom(tiers, y, lower) - TaxFrom(tiers, x, lower) <= TopRate(tiers) * (y - x)
  {
    var ds := TaxGrowthBySlices(tiers, x, y, lower);
    BoundByScale(TaxFrom(tiers, y, lower) - TaxFrom(tiers, x, lower), TopRate(tiers), ds, y - x);
  }

  /** Income at or below the first bound is not taxed. */
  lemma {:induction false} TaxFromBelow(tiers: seq<Tier>, x: real, lower: real)
    requires BoundsAscend(tiers, lower)
    requires x <= lower
    ensures TaxFrom(tiers, x, lower) == 0.0
    decreases |tiers|
  {
    TaxFromUnfold(tiers, x, lower);
    if |tiers| > 1 {
      TaxFromBelow(tiers[1..], x, tiers[0].max.limit);
    }
  }

  /** Tax lies between zero and the top rate applied to all income above the
      first bound. */
  lemma TaxFromBounds(tiers: seq<Tier>, x: real, lower: real)
    requires Progressive(tiers, lower)
    ensures 0.0 <= TaxFrom(tiers, x, lower) <= TopRate(tiers) * Above(x, lower)
  {
    TaxFromBelow(tiers, lower, lower);
    if lower <= x {
      TaxFromContinuous(tiers, lower, x, lower);
      assert Above(x, lower) == x - lower;
    } else {
      TaxFromBelow(tiers, x, lower);
      assert Above(x, lower) == 0.0;
    }
  }

  /** For income inside the first tier, the tax is the first rate on the
      income above the first bound. */
  lemma TaxInFirstTier(tiers: seq<Tier>, lower: real, x: real)
    requires BoundsAscend(tiers, lower)
    requires lower <= x
    requires tiers[0].max.UpTo? ==> x <= tiers[0].max.limit
    ensures TaxFrom(tiers, x, lower) == tiers[0].rate * (x - lower)
  {
    TaxFromUnfold(tiers, x, lower);
    assert Slice(x, lower, tiers[0].max) == x - lower;
    if |tiers| > 1 {
      TaxFromBelow(tiers[1..], x, tiers[0].max.limit);
    }
  }

  /** Tax is piecewise linear: for income inside tier `k` it is the tax of
      the full tiers below plus tier `k`'s rate on the excess over its lower
      bound. */
  lemma {:induction false} TaxInTier(tiers: seq<Tier>, lower: real, k: nat, x: real)
    requires BoundsAscend(tiers, lower)
    requires k < |tiers|
    requires LowerOf(tiers, lower, k) <= x
    requires tiers[k].max.UpTo? ==> x <= tiers[k].max.limit
    ensures TaxFrom(tiers, x, lower)
            == FullTax(tiers, lower, k) + tiers[k].rate * (x - LowerOf(tiers, lower, k))
    decreases k
  {
    if k == 0 {
      TaxInFirstTier(tiers, lower, x);
    } else {
      var m := tiers[0].max.limit;
      BoundedBelowLast(tiers, lower, 0);
      if k > 1 {
        BoundedBelowLast(tiers[1..], m, k - 2);
      }
      assert LowerOf(tiers[1..], m, k - 1) == LowerOf(tiers, lower, k);
      assert tiers[1..][k - 1] == tiers[k];
      TaxInTier(tiers[1..], m, k - 1, x);
      TaxFromUnfold(tiers, x, lower);
      assert Slice(x, lower, tiers[0].max) == m - lower;
    }
  }

  /** No jump at a bound: the formula of tier `k` and that of tier `k + 1`
      agree at the bound between them, where the tax equals the full tax of
      the first `k + 1` tiers. */
  lemma TaxAtBound(tiers: seq<Tier>, lower: real, k: nat)
    requires BoundsAscend(tiers, lower)
    requires k + 1 < |tiers|
    ensures tiers[k].max.UpTo?
    ensures TaxFrom(tiers, tiers[k].max.limit, lower) == FullTax(tiers, lower, k + 1)
    ensures TaxFrom(tiers, tiers[k].max.limit, lower)
            == FullTax(tiers, lower, k) + tiers[k].rate * (tiers[k].max.limit - LowerOf(tiers, lower, k))
  {
    BoundedBelowLast(tiers, lower, k);
    var b := tiers[k].max.limit;
    TaxInTier(tiers, lower, k, b);
    assert LowerOf(tiers, lower, k + 1) == b;
    if k + 2 < |tiers| {
      BoundedBelowLast(tiers, lower, k + 1);
    } else {
      LastUnbounded(tiers, lower);
    }
    TaxInTier(tiers, lower, k + 1, b);
  }

  /** The slice of a bounded tier and the income above that tier make up
      all of the income above the tier's lower bound. */
  lemma SliceSplit(x: real, lower: real, m: real)
    requires lower < m
    ensures Slice(x, lower, UpTo(m)) + Above(x, m) == Above(x, lower)
  {
  }

  /** `tier.max - previousTierMax`, where `Infinity - m` is `Infinity`. */
  function Range(upper: Bound, previous: real): Bound
  {
    match upper
    case NoLimit => NoLimit
    case UpTo(m) => UpTo(m - previous)
  }

  /** `Math.min(v, range)`, where `Math.min(v, Infinity)` is `v`. */
  function MinBound(v: real, range: Bound): (m: real)
    ensures m <= v && (range.UpTo? ==> m <= range.limit)
    ensures m == v || (range.UpTo? && m == range.limit)
  {
    match range
    case NoLimit => v
    case UpTo(w) => if v < w then v else w
  }

  /** One pass of the loop body: the amount taxed in the tier is the slice
      of the income in it (nothing for a negative income), and what remains
      is the income above the tier's bound. */
  lemma TierStep(x: real, previous: real, upper: Bound, rate: real, remaining: real)
    requires 0.0 <= previous
    requires upper.UpTo? ==> previous < upper.limit
    requires remaining == if x < 0.0 then x else Above(x, previous)
    ensures var amount := MinBound(if remaining < 0.0 then 0.0 else remaining, Range(upper, previous));
            && amount == (if x < 0.0 then 0.0 else Slice(x, previous, upper))
            && (if amount > 0.0 then amount * rate else 0.0) == Slice(x, previous, upper) * rate
            && (if amount > 0.0 then remaining - amount else remaining)
               == (if x < 0.0 then x else if upper.NoLimit? then 0.0 else Above(x, upper.limit))
  {
    var amount := MinBound(if remaining < 0.0 then 0.0 else remaining, Range(upper, previous));
    if upper.UpTo? && 0.0 <= x {
      SliceSplit(x, previous, upper.limit);
    }
    assert amount == Slice(x, previous, upper);
  }

  /** The state of the tier walk before tier `i`: `tax` plus the tax the
      remaining tiers charge is the whole tax, and `remaining` is the income
      above the last bound passed (all of it while nothing was passed, none
      once the open tier is passed, the income itself when it is negative). */
  predicate Walked(tiers: seq<Tier>, x: real, i: nat, previous: Bound, tax: real, remaining: real)
  {
    && BoundsAscend(tiers, 0.0)
    && i <= |tiers|
    && (i < |tiers| ==>
          && previous.UpTo? && 0.0 <= previous.limit
          && BoundsAscend(tiers[i..], previous.limit)
          && tax + TaxFrom(tiers[i..], x, previous.limit) == TaxFrom(tiers, x, 0.0))
    && (i == |tiers| ==> previous.NoLimit? && tax == TaxFrom(tiers, x, 0.0))
    && remaining == if x < 0.0 then x
                    else if previous.NoLimit? then 0.0
                    else Above(x, previous.limit)
  }

  /** One pass of the loop body keeps the walk's state. */
  lemma WalkStep(tiers: seq<Tier>, x: real, i: nat, previous: Bound, tax: real, remaining: real)
    requires Walked(tiers, x, i, previous, tax, remaining) && i < |tiers|
    ensures var amount := MinBound(if remaining < 0.0 then 0.0 else remaining,
                                   Range(tiers[i].max, previous.limit));
            Walked(tiers, x, i + 1, tiers[i].max,
                   if amount > 0.0 then tax + amount * tiers[i].rate else tax,
                   if amount > 0.0 then remaining - amount else remaining)
  {
    TierStep(x, previous.limit, tiers[i].max, tiers[i].rate, remaining);
    TaxFromUnfold(tiers[i..], x, previous.limit);
    if i + 1 < |tiers| {
      assert tiers[i..][1..] == tiers[i + 1..];
    }
  }

  /** The loop of index.tsx:217-230: walks the tiers in order, taxing only
      the slice of the remaining income that fits in each tier. Returns the
      accumulated tax and what is left of the income after the last tier:
      nothing, unless the income was negative and no tier took any of it. */
  method TierLoop(tiers: seq<Tier>, taxableIncome: real) returns (tax: real, remainingTaxable: real)
    requires BoundsAscend(tiers, 0.0)
    ensures tax == TaxFrom(tiers, taxableIncome, 0.0)
    ensures remainingTaxable == if taxableIncome < 0.0 then taxableIncome else 0.0
  {
    tax := 0.0;
    remainingTaxable := taxableIncome;
    var previousTierMax: Bound := UpTo(0.0);
    for i := 0 to |tiers|
      invariant Walked(tiers, taxableIncome, i, previousTierMax, tax, remainingTaxable)
    {
      var tier := tiers[i];
      var range := Range(tier.max, previousTierMax.limit);
      var taxableAmountInTier := MinBound(if remainingTaxable < 0.0 then 0.0 else remainingTaxable, range);
      WalkStep(tiers, taxableIncome, i, previousTierMax, tax, remainingTaxable);
      if taxableAmountInTier > 0.0 {
        tax := tax + taxableAmountInTier * tier.rate;
        remainingTaxable := remainingTaxable - taxableAmountInTier;
      }
      previousTierMax := tier.max;
    }
  }
}
