/** filters/exponential_smoothing.go: the recursive smoothing function and its closed form.
    Floating-point numbers are modelled as reals; alpha is any real strictly between 0 and 1. */
module Smoothing {
  import opened Prelude

  /** exponentialSmoothing. */
  function Smooth(values: seq<real>, ptr: int, alpha: real): real
    requires 0 <= ptr < |values|
  {
    if ptr <= 0 then values[0]
    else alpha * values[ptr] + (1.0 - alpha) * Smooth(values, ptr - 1, alpha)
  }

  // ----- Reference: a weighted sum, for the two factors a = alpha and b = 1 - alpha

  function Power(x: real, n: nat): real {
    if n == 0 then 1.0 else x * Power(x, n - 1)
  }

  /** The weight of value i in the smoothing of the values 0 to ptr. */
  function Weight(ptr: nat, i: nat, a: real, b: real): real
    requires i <= ptr
  {
    if i == 0 then Power(b, ptr) else a * Power(b, ptr - i)
  }

  function Weights(ptr: nat, a: real, b: real): seq<real> {
    seq(ptr + 1, i requires 0 <= i <= ptr => Weight(ptr, i, a, b))
  }

  /** The sum of the products of weights and values. */
  function WeightedSum(weights: seq<real>, values: seq<real>): real
    requires |weights| == |values|
  {
    if weights == [] then 0.0 else WeightedSum(Front(weights), Front(values)) + Last(weights) * Last(values)
  }

  function Total(weights: seq<real>): real {
    if weights == [] then 0.0 else Total(Front(weights)) + Last(weights)
  }

  lemma {:induction false} PowerBounds(x: real, n: nat)
    requires 0.0 < x < 1.0
    ensures 0.0 < Power(x, n) <= 1.0
  {
    if n > 0 {
      PowerBounds(x, n - 1);
    }
  }

  lemma WeightPositive(ptr: nat, i: nat, a: real, b: real)
    requires i <= ptr && 0.0 < a && 0.0 < b < 1.0
    ensures Weight(ptr, i, a, b) > 0.0
  {
    PowerBounds(b, ptr);
    PowerBounds(b, ptr - i);
  }

  /** Smoothing one value further scales all earlier weights by b. */
  lemma WeightStep(ptr: nat, i: nat, a: real, b: real)
    requires i < ptr
    ensures Weight(ptr, i, a, b) == b * Weight(ptr - 1, i, a, b)
  {
    if i > 0 {
      var p := Power(b, ptr - 1 - i);
      assert Power(b, ptr - i) == b * p;
      assert a * (b * p) == b * (a * p);
    }
  }

  /** All weights but the last are the earlier weights, scaled by b. */
  lemma WeightsStep(ptr: nat, a: real, b: real)
    requires 0 < ptr
    ensures Last(Weights(ptr, a, b)) == a
    ensures forall i :: 0 <= i < ptr ==> Front(Weights(ptr, a, b))[i] == b * Weights(ptr - 1, a, b)[i]
  {
    assert Power(b, 0) == 1.0;
    forall i | 0 <= i < ptr ensures Weight(ptr, i, a, b) == b * Weight(ptr - 1, i, a, b) {
      WeightStep(ptr, i, a, b);
    }
  }

  lemma {:induction false} WeightedSumScales(weights: seq<real>, scaled: seq<real>, values: seq<real>, k: real)
    requires |weights| == |scaled| == |values|
    requires forall i :: 0 <= i < |weights| ==> scaled[i] == k * weights[i]
    ensures WeightedSum(scaled, values) == k * WeightedSum(weights, values)
  {
    if weights != [] {
      assert WeightedSum(Front(scaled), Front(values)) == k * WeightedSum(Front(weights), Front(values)) by {
        WeightedSumScales(Front(weights), Front(scaled), Front(values), k);
      }
      WeightedTermStep(k, Last(values),
                       WeightedSum(Front(weights), Front(values)), Last(weights), WeightedSum(weights, values),
                       WeightedSum(Front(scaled), Front(values)), Last(scaled), WeightedSum(scaled, values));
    }
  }

  lemma {:induction false} TotalScales(weights: seq<real>, scaled: seq<real>, k: real)
    requires |weights| == |scaled|
    requires forall i :: 0 <= i < |weights| ==> scaled[i] == k * weights[i]
    ensures Total(scaled) == k * Total(weights)
  {
    if weights != [] {
      TotalScales(Front(weights), Front(scaled), k);
      DistributeLeft(k, Total(Front(weights)), Last(weights));
    }
  }

  lemma Scale(k: real, a: real, b: real)
    requires 0.0 <= k && a <= b
    ensures k * a <= k * b
  {
    assert k * (b - a) >= 0.0;
  }

  lemma ScaleStrict(k: real, a: real, b: real)
    requires 0.0 < k && a < b
    ensures k * a < k * b
  {
    assert k * (b - a) > 0.0;
  }

  lemma Associate(k: real, w: real, v: real)
    ensures (k * w) * v == k * (w * v)
  {
  }

  lemma DistributeLeft(k: real, s: real, t: real)
    ensures k * (s + t) == k * s + k * t
  {
  }

  /** If a sum and a weight scale by k, so does the sum with the weighted term. */
  lemma WeightedTermStep(k: real, v: real, sum: real, w: real, total: real, sum': real, w': real, total': real)
    requires sum' == k * sum && w' == k * w
    requires total == sum + w * v && total' == sum' + w' * v
    ensures total' == k * total
  {
    var term, term' := w * v, w' * v;
    assert term' == k * term by {
      Associate(k, w, v);
    }
    DistributeLeft(k, sum, term);
  }

  lemma UnitSum(a: real, b: real, x: real)
    requires a + b == 1.0
    ensures a * x + b * x == x
  {
    assert (a + b) * x == a * x + b * x;
  }

  lemma SmoothSnoc(values: seq<real>, ptr: nat, alpha: real, b: real, before: real)
    requires 0 < ptr < |values| && b == 1.0 - alpha
    requires Smooth(values, ptr - 1, alpha) == before
    ensures Smooth(values, ptr, alpha) == alpha * values[ptr] + b * before
  {
  }

  lemma WeightedSumSnoc(weights: seq<real>, values: seq<real>, front: real, w: real, v: real)
    requires |weights| == |values| && weights != [] && Last(weights) == w && Last(values) == v
    requires WeightedSum(Front(weights), Front(values)) == front
    ensures WeightedSum(weights, values) == front + w * v
  {
  }

  lemma FrontWeight(ptr: nat, i: nat, a: real, b: real)
    requires i < ptr
    ensures Front(Weights(ptr, a, b))[i] == b * Weights(ptr - 1, a, b)[i]
  {
    WeightStep(ptr, i, a, b);
  }

  /** The earlier weights, scaled, give the earlier result, scaled. */
  lemma WeightedFront(values: seq<real>, ptr: nat, a: real, b: real)
    requires 0 < ptr < |values|
    ensures WeightedSum(Front(Weights(ptr, a, b)), values[..ptr])
         == b * WeightedSum(Weights(ptr - 1, a, b), values[..ptr])
  {
    var weights, scaled := Weights(ptr - 1, a, b), Front(Weights(ptr, a, b));
    assert |weights| == |scaled| == ptr;
    forall i | 0 <= i < ptr ensures scaled[i] == b * weights[i] {
      FrontWeight(ptr, i, a, b);
    }
    WeightedSumScales(weights, scaled, values[..ptr], b);
  }

  /** Closed form: the recursion is the weighted sum of its values. */
  lemma {:induction false} ClosedForm(values: seq<real>, ptr: nat, alpha: real, b: real)
    requires ptr < |values| && b == 1.0 - alpha
    ensures Smooth(values, ptr, alpha) == WeightedSum(Weights(ptr, alpha, b), values[..ptr + 1])
  {
    if ptr == 0 {
      var weights, used := Weights(0, alpha, b), values[..1];
      assert WeightedSum(Front(weights), Front(used)) == 0.0 && Last(weights) == 1.0;
    } else {
      ClosedForm(values, ptr - 1, alpha, b);
      ClosedFormStep(values, ptr, alpha, b, Smooth(values, ptr - 1, alpha));
    }
  }

  lemma ClosedFormStep(values: seq<real>, ptr: nat, alpha: real, b: real, before: real)
    requires 0 < ptr < |values| && b == 1.0 - alpha
    requires before == Smooth(values, ptr - 1, alpha) == WeightedSum(Weights(ptr - 1, alpha, b), values[..ptr])
    ensures Smooth(values, ptr, alpha) == WeightedSum(Weights(ptr, alpha, b), values[..ptr + 1])
  {
    var weights, used := Weights(ptr, alpha, b), values[..ptr + 1];
    SmoothSnoc(values, ptr, alpha, b, before);
    WeightedFront(values, ptr, alpha, b);
    WeightsStep(ptr, alpha, b);
    assert Front(used) == values[..ptr];
    WeightedSumSnoc(weights, used, b * before, alpha, values[ptr]);
  }

  /** The weights are positive and a partition of one. */
  lemma {:induction false} WeightsSumToOne(ptr: nat, a: real, b: real)
    requires 0.0 < a && 0.0 < b && a + b == 1.0
    ensures Total(Weights(ptr, a, b)) == 1.0
    ensures forall i :: 0 <= i <= ptr ==> Weights(ptr, a, b)[i] > 0.0
  {
    var weights := Weights(ptr, a, b);
    forall i | 0 <= i <= ptr ensures weights[i] > 0.0 {
      WeightPositive(ptr, i, a, b);
    }
    if ptr == 0 {
      assert Total(Front(weights)) == 0.0;
    } else {
      assert Total(Weights(ptr - 1, a, b)) == 1.0 by {
        WeightsSumToOne(ptr - 1, a, b);
      }
      WeightsStep(ptr, a, b);
      TotalScales(Weights(ptr - 1, a, b), Front(weights), b);
    }
  }

  // ----- Consequences

  /** Scaling two inequalities by non-negative factors and adding them. */
  lemma AddScaled(a: real, x: real, u: real, b: real, y: real, v: real)
    requires 0.0 <= a && 0.0 <= b && x <= u && y <= v
    ensures a * x + b * y <= a * u + b * v
  {
    Scale(a, x, u);
    Scale(b, y, v);
  }

  lemma AddScaledStrict(a: real, x: real, u: real, b: real, y: real, v: real)
    requires 0.0 < a && 0.0 < b && x <= u && y <= v && (x < u || y < v)
    ensures a * x + b * y < a * u + b * v
  {
    if x < u {
      ScaleStrict(a, x, u);
      Scale(b, y, v);
    } else {
      Scale(a, x, u);
      ScaleStrict(b, y, v);
    }
  }

  lemma Mix(a: real, b: real, x: real, y: real, lo: real, hi: real)
    requires 0.0 <= a && 0.0 <= b && a + b == 1.0
    requires lo <= x <= hi && lo <= y <= hi
    ensures lo <= a * x + b * y <= hi
  {
    var mixed, low, high := a * x + b * y, a * lo + b * lo, a * hi + b * hi;
    assert low <= mixed by {
      AddScaled(a, lo, x, b, lo, y);
    }
    assert low == lo by {
      UnitSum(a, b, lo);
    }
    assert mixed <= high by {
      AddScaled(a, x, hi, b, y, hi);
    }
    assert high == hi by {
      UnitSum(a, b, hi);
    }
  }

  // The order properties of one blending step carry over to the recursion. They are proved for a fold with
  // any step, so that no product of reals occurs in the inductions.

  function Fold(values: seq<real>, ptr: nat, step: (real, real) -> real): real
    requires ptr < |values|
  {
    if ptr == 0 then values[0] else step(values[ptr], Fold(values, ptr - 1, step))
  }

  function Blend(alpha: real): (real, real) -> real {
    (x, y) => alpha * x + (1.0 - alpha) * y
  }

  lemma {:induction false} SmoothIsFold(values: seq<real>, ptr: nat, alpha: real)
    requires ptr < |values|
    ensures Smooth(values, ptr, alpha) == Fold(values, ptr, Blend(alpha))
  {
    if ptr > 0 {
      SmoothIsFold(values, ptr - 1, alpha);
    }
  }

  ghost predicate StepWithin(step: (real, real) -> real, lo: real, hi: real) {
    forall x, y :: lo <= x <= hi && lo <= y <= hi ==> lo <= step(x, y) <= hi
  }

  lemma {:induction false} FoldWithin(values: seq<real>, ptr: nat, step: (real, real) -> real, lo: real, hi: real)
    requires ptr < |values|
    requires forall i :: 0 <= i <= ptr ==> lo <= values[i] <= hi
    requires StepWithin(step, lo, hi)
    ensures lo <= Fold(values, ptr, step) <= hi
  {
    if ptr > 0 {
      FoldWithin(values, ptr - 1, step, lo, hi);
    }
  }

  ghost predicate StepMonotone(step: (real, real) -> real) {
    forall x, y, u, v :: x <= u && y <= v ==>
      step(x, y) <= step(u, v) && (x < u || y < v ==> step(x, y) < step(u, v))
  }

  lemma {:induction false} FoldMonotone(values: seq<real>, larger: seq<real>, ptr: nat, step: (real, real) -> real)
    requires ptr < |values| && ptr < |larger| && StepMonotone(step)
    requires forall i :: 0 <= i <= ptr ==> values[i] <= larger[i]
    ensures Fold(values, ptr, step) <= Fold(larger, ptr, step)
    ensures (exists i :: 0 <= i <= ptr && values[i] < larger[i]) ==> Fold(values, ptr, step) < Fold(larger, ptr, step)
  {
    if ptr > 0 {
      FoldMonotone(values, larger, ptr - 1, step);
    }
  }

  ghost predicate StepCommutes(step: (real, real) -> real, f: real -> real) {
    forall x, y :: step(f(x), f(y)) == f(step(x, y))
  }

  lemma {:induction false} FoldCommutes(values: seq<real>, mapped: seq<real>, ptr: nat,
                                        step: (real, real) -> real, f: real -> real)
    requires ptr < |values| && ptr < |mapped|
    requires forall i :: 0 <= i <= ptr ==> mapped[i] == f(values[i])
    requires StepCommutes(step, f)
    ensures Fold(mapped, ptr, step) == f(Fold(values, ptr, step))
  {
    if ptr > 0 {
      FoldCommutes(values, mapped, ptr - 1, step, f);
      var x, y := values[ptr], Fold(values, ptr - 1, step);
      assert step(f(x), f(y)) == f(step(x, y));
    }
  }

  lemma BlendStaysWithin(alpha: real, lo: real, hi: real)
    requires 0.0 < alpha < 1.0
    ensures StepWithin(Blend(alpha), lo, hi)
  {
    forall x, y | lo <= x <= hi && lo <= y <= hi ensures lo <= Blend(alpha)(x, y) <= hi {
      Mix(alpha, 1.0 - alpha, x, y, lo, hi);
    }
  }

  /** The result never leaves the range of the values. */
  lemma SmoothWithin(values: seq<real>, ptr: nat, alpha: real, lo: real, hi: real)
    requires ptr < |values| && 0.0 < alpha < 1.0
    requires forall i :: 0 <= i <= ptr ==> lo <= values[i] <= hi
    ensures lo <= Smooth(values, ptr, alpha) <= hi
  {
    SmoothIsFold(values, ptr, alpha);
    BlendStaysWithin(alpha, lo, hi);
    FoldWithin(values, ptr, Blend(alpha), lo, hi);
  }

  lemma BlendOrder(a: real, b: real, x: real, u: real, y: real, v: real, low: real, high: real)
    requires 0.0 < a && 0.0 < b && x <= u && y <= v
    requires low == a * x + b * y && high == a * u + b * v
    ensures low <= high && (x < u || y < v ==> low < high)
  {
    if x < u || y < v {
      AddScaledStrict(a, x, u, b, y, v);
    }
  }

  lemma BlendIsMonotone(alpha: real)
    requires 0.0 < alpha < 1.0
    ensures StepMonotone(Blend(alpha))
  {
    forall x, y, u, v | x <= u && y <= v
      ensures Blend(alpha)(x, y) <= Blend(alpha)(u, v)
           && (x < u || y < v ==> Blend(alpha)(x, y) < Blend(alpha)(u, v))
    {
      BlendOrder(alpha, 1.0 - alpha, x, u, y, v, Blend(alpha)(x, y), Blend(alpha)(u, v));
    }
  }

  /** Raising values never lowers the result, and raising any one of them strictly raises it. */
  lemma SmoothMonotone(values: seq<real>, larger: seq<real>, ptr: nat, alpha: real)
    requires ptr < |values| && ptr < |larger| && 0.0 < alpha < 1.0
    requires forall i :: 0 <= i <= ptr ==> values[i] <= larger[i]
    ensures Smooth(values, ptr, alpha) <= Smooth(larger, ptr, alpha)
    ensures (exists i :: 0 <= i <= ptr && values[i] < larger[i]) ==>
      Smooth(values, ptr, alpha) < Smooth(larger, ptr, alpha)
  {
    SmoothIsFold(values, ptr, alpha);
    SmoothIsFold(larger, ptr, alpha);
    BlendIsMonotone(alpha);
    FoldMonotone(values, larger, ptr, Blend(alpha));
  }

  lemma MixAffine(a: real, b: real, x: real, y: real, scale: real, shift: real, fx: real, fy: real, z: real)
    requires a + b == 1.0
    requires fx == scale * x + shift && fy == scale * y + shift && z == a * x + b * y
    ensures a * fx + b * fy == scale * z + shift
  {
    var ax, by_ := a * x, b * y;
    assert a * fx == scale * ax + a * shift;
    assert b * fy == scale * by_ + b * shift;
    assert a * shift + b * shift == shift by {
      UnitSum(a, b, shift);
    }
    assert scale * (ax + by_) == scale * ax + scale * by_;
  }

  function Affine(scale: real, shift: real): real -> real {
    x => scale * x + shift
  }

  lemma BlendCommutesWithAffine(alpha: real, scale: real, shift: real)
    ensures StepCommutes(Blend(alpha), Affine(scale, shift))
  {
    var f, step := Affine(scale, shift), Blend(alpha);
    forall x, y ensures step(f(x), f(y)) == f(step(x, y)) {
      MixAffine(alpha, 1.0 - alpha, x, y, scale, shift, f(x), f(y), step(x, y));
    }
  }

  /** Changing the unit or the origin of the values changes the result in the same way. */
  lemma SmoothAffine(values: seq<real>, mapped: seq<real>, ptr: nat, alpha: real, scale: real, shift: real)
    requires ptr < |values| && ptr < |mapped|
    requires forall i :: 0 <= i <= ptr ==> mapped[i] == Affine(scale, shift)(values[i])
    ensures Smooth(mapped, ptr, alpha) == Affine(scale, shift)(Smooth(values, ptr, alpha))
  {
    SmoothIsFold(values, ptr, alpha);
    SmoothIsFold(mapped, ptr, alpha);
    BlendCommutesWithAffine(alpha, scale, shift);
    FoldCommutes(values, mapped, ptr, Blend(alpha), Affine(scale, shift));
  }

  lemma BernoulliStep(a: real, b: real, p: real, m: real)
    requires 0.0 <= a && a + b == 1.0 && p <= 1.0 && p >= 1.0 - m * a
    ensures b * p >= 1.0 - (m + 1.0) * a
  {
    var ap, bp, ma := a * p, b * p, m * a;
    assert ap + bp == p by {
      UnitSum(a, b, p);
    }
    assert ap <= a by {
      Scale(a, p, 1.0);
    }
    assert (m + 1.0) * a == ma + a;
  }

  /** Bernoulli's inequality. */
  lemma {:induction false} Bernoulli(alpha: real, n: nat)
    requires 0.0 < alpha < 1.0
    ensures Power(1.0 - alpha, n) >= 1.0 - n as real * alpha
  {
    if n > 0 {
      Bernoulli(alpha, n - 1);
      PowerBounds(1.0 - alpha, n - 1);
      BernoulliStep(alpha, 1.0 - alpha, Power(1.0 - alpha, n - 1), (n - 1) as real);
    }
  }

  /** x lies within the share 1 - p of range around zero. */
  predicate Within(x: real, p: real, range: real) {
    -((1.0 - p) * range) <= x <= (1.0 - p) * range
  }

  lemma DeviationStep(a: real, b: real, x: real, y: real, v: real, p: real, range: real, q: real, z: real)
    requires 0.0 <= a && 0.0 <= b && a + b == 1.0
    requires -range <= x - v <= range && Within(y - v, p, range)
    requires q == b * p && z == a * x + b * y
    ensures Within(z - v, q, range)
  {
    var dx, dy, rest := x - v, y - v, (1.0 - p) * range;
    var moved, bound := a * dx + b * dy, a * range + b * rest;
    assert moved == a * x + b * y - v by {
      assert a * dx == a * x - a * v && b * dy == b * y - b * v;
      UnitSum(a, b, v);
    }
    assert bound == (1.0 - b * p) * range by {
      DeviationBound(a, b, p, range);
    }
    assert moved <= bound by {
      AddScaled(a, dx, range, b, dy, rest);
    }
    assert -bound <= moved by {
      AddScaled(a, -range, dx, b, -rest, dy);
      assert a * -range == -(a * range) && b * -rest == -(b * rest);
    }
  }

  lemma DeviationBound(a: real, b: real, p: real, range: real)
    requires a + b == 1.0
    ensures a * range + b * ((1.0 - p) * range) == (1.0 - b * p) * range
  {
    var pr := p * range;
    assert (1.0 - p) * range == range - pr;
    assert b * (range - pr) == b * range - b * pr;
    assert (1.0 - b * p) * range == range - b * pr by {
      assert (b * p) * range == b * (p * range);
    }
    UnitSum(a, b, range);
  }

  /** Everything but the oldest value has weight 1 - (1 - alpha)^ptr in total. */
  lemma {:induction false} DeviationFromOldest(values: seq<real>, ptr: nat, alpha: real, lo: real, hi: real)
    requires ptr < |values| && 0.0 < alpha < 1.0
    requires forall i :: 0 <= i <= ptr ==> lo <= values[i] <= hi
    ensures Within(Smooth(values, ptr, alpha) - values[0], Power(1.0 - alpha, ptr), hi - lo)
  {
    if ptr == 0 {
      assert Within(0.0, 1.0, hi - lo);
    } else {
      var b, y := 1.0 - alpha, Smooth(values, ptr - 1, alpha);
      var p, q := Power(b, ptr - 1), Power(b, ptr);
      assert Within(y - values[0], p, hi - lo) by {
        DeviationFromOldest(values, ptr - 1, alpha, lo, hi);
      }
      DeviationStep(alpha, b, values[ptr], y, values[0], p, hi - lo, q, Smooth(values, ptr, alpha));
    }
  }

  lemma Widen(x: real, p: real, share: real, range: real, bound: real)
    requires 0.0 <= range && 1.0 - p <= share && Within(x, p, range) && bound == share * range
    ensures -bound <= x <= bound
  {
    ScaleRight(1.0 - p, share, range, (1.0 - p) * range, bound);
  }

  lemma ScaleRight(x: real, y: real, k: real, scaledX: real, scaledY: real)
    requires 0.0 <= k && x <= y && scaledX == x * k && scaledY == y * k
    ensures scaledX <= scaledY
  {
    var gap := y - x;
    assert gap * k >= 0.0;
    assert y * k == x * k + gap * k;
  }

  /** The result stays within ptr * alpha * (hi - lo) of the oldest value: with alpha = exp(-n), as Read
      chooses it, smoothing a full window of n values hardly moves away from its oldest entry. */
  lemma StaysNearOldest(values: seq<real>, ptr: nat, alpha: real, lo: real, hi: real, share: real, bound: real)
    requires ptr < |values| && 0.0 < alpha < 1.0
    requires forall i :: 0 <= i <= ptr ==> lo <= values[i] <= hi
    requires share == ptr as real * alpha && bound == share * (hi - lo)
    ensures -bound <= Smooth(values, ptr, alpha) - values[0] <= bound
  {
    var moved, p := Smooth(values, ptr, alpha) - values[0], Power(1.0 - alpha, ptr);
    assert lo <= values[0] <= hi;
    RestWeight(alpha, ptr, p, share);
    assert Within(moved, p, hi - lo) by {
      DeviationFromOldest(values, ptr, alpha, lo, hi);
    }
    Widen(moved, p, share, hi - lo, bound);
  }

  /** The weight of all values but the oldest. */
  lemma RestWeight(alpha: real, n: nat, p: real, share: real)
    requires 0.0 < alpha < 1.0 && p == Power(1.0 - alpha, n) && share == n as real * alpha
    ensures 1.0 - p <= share
  {
    Bernoulli(alpha, n);
  }
}
