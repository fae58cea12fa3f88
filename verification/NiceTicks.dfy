/** Axis ticks at round numbers (niceTicks in frontend/lib/chart.ts). */
module NiceTicks {

  /** The part of a step by which a tick may lie beyond the upper end. */
  const SLACK := 0.000000001

  /** Ten to the power n. */
  function Pow10(n: int): (r: real)
    ensures r > 0.0
    decreases if n >= 0 then n else -n
  {
    if n == 0 then 1.0 else if n > 0 then 10.0 * Pow10(n - 1) else Pow10(n + 1) / 10.0
  }

  /** The floor of the decimal logarithm of r. */
  function Exponent(r: real): (e: int)
    requires r > 0.0
    ensures Pow10(e) <= r < 10.0 * Pow10(e)
    decreases r < 1.0, if r < 1.0 then (1.0 / r).Floor else r.Floor
  {
    if r >= 10.0 then
      var e := Exponent(r / 10.0);
      StepUp(e);
      e + 1
    else if r < 1.0 then
      SmallerReciprocal(r);
      var e := Exponent(r * 10.0);
      StepUp(e - 1);
      e - 1
    else 0
  }

  lemma StepUp(n: int)
    ensures Pow10(n + 1) == 10.0 * Pow10(n)
  {
  }

  lemma SmallerReciprocal(r: real)
    requires 0.0 < r < 1.0
    ensures (1.0 / (r * 10.0)).Floor < (1.0 / r).Floor
  {
    var x := 1.0 / r;
    assert x > 1.0;
    assert 1.0 / (r * 10.0) == x / 10.0;
    FloorOfTenth(x);
  }

  lemma FloorOfTenth(x: real)
    requires x > 1.0
    ensures (x / 10.0).Floor < x.Floor
  {
  }

  /** 1, 2, 5 or 10, whichever is nearest to norm. */
  function Nice(norm: real): real {
    if norm <= 1.5 then 1.0 else if norm <= 3.0 then 2.0 else if norm <= 7.0 then 5.0 else 10.0
  }

  /** The spacing asked for, as a multiple of its power of ten. */
  function Norm(rough: real): (norm: real)
    requires rough > 0.0
    ensures 1.0 <= norm < 10.0 && Times(norm, Pow10(Exponent(rough))) == rough
  {
    var mag := Pow10(Exponent(rough));
    var norm := rough / mag;
    NormIsInRange(rough, mag, norm);
    norm
  }

  function Step(rough: real): (step: real)
    requires rough > 0.0
    ensures step > 0.0
  {
    Times(Nice(Norm(rough)), Pow10(Exponent(rough)))
  }

  function Times(x: real, y: real): (r: real)
    ensures x > 0.0 && y > 0.0 ==> r > 0.0
  {
    x * y
  }

  function AtLeastOne(count: int): int { if count > 1 then count else 1 }

  function Ceil(x: real): int { -(-x).Floor }

  /** The interval the axis covers: a single value is padded on both sides. */
  function Padded(min: real, max: real): (r: (real, real))
    ensures min < max ==> r == (min, max)
    ensures min == max ==> r.0 < min < r.1
    ensures min == max && min != 0.0 ==> (r.1 - min) * 100.0 == (min - r.0) * 100.0 == if min < 0.0 then -min else min
    ensures min == max == 0.0 ==> r == (-1.0, 1.0)
  {
    if min == max then
      var abs := if min < 0.0 then -min else min;
      var pad := if abs * 0.01 == 0.0 then 1.0 else abs * 0.01;
      (min - pad, max + pad)
    else (min, max)
  }

  /** The multiples of step from the first at or above lo to the last at or below hi, give or take a billionth. */
  function Multiples(lo: real, hi: real, step: real): (ts: seq<real>)
    requires step > 0.0
  {
    var first, last := Ceil(lo / step), (hi / step + SLACK).Floor;
    seq(if last < first then 0 else last - first + 1, j => Multiple(first + j, step))
  }

  function Multiple(k: int, step: real): real { k as real * step }

  function Ticks(min: real, max: real, count: int): seq<real> {
    var (lo, hi) := Padded(min, max);
    if lo > hi then [] // the logarithm of a negative span is not a number and the loop is never entered
    else Multiples(lo, hi, TickStep(lo, hi, count))
  }

  /** The spacing asked for. */
  function Rough(lo: real, hi: real, c: int): (rough: real)
    requires lo < hi && c >= 1
    ensures rough > 0.0 && Times(rough, c as real) == hi - lo
  {
    Quotient(hi - lo, c as real);
    (hi - lo) / c as real
  }

  lemma Quotient(x: real, y: real)
    requires y > 0.0
    ensures Times(x / y, y) == x && (x > 0.0 ==> x / y > 0.0)
  {
    if x > 0.0 && x / y <= 0.0 {
      MulLe(x / y, 0.0, y);
      assert false;
    }
  }

  function TickStep(lo: real, hi: real, count: int): (step: real)
    requires lo < hi
    ensures step > 0.0
  {
    Step(Rough(lo, hi, AtLeastOne(count)))
  }

  lemma MulLe(x: real, y: real, k: real)
    requires k > 0.0
    ensures x * k <= y * k <==> x <= y
  {
    assert x * k - y * k == (x - y) * k;
  }

  method Compute(min: real, max: real, count: int) returns (out: seq<real>)
    ensures out == Ticks(min, max, count)
  {
    var lo, hi := min, max;
    if min == max {
      var pad := (if min < 0.0 then -min else min) * 0.01;
      if pad == 0.0 { pad := 1.0; }
      lo, hi := min - pad, max + pad;
    }
    if lo > hi { return []; }
    var step := RoundStep(lo, hi, count);
    out := Walk(lo, hi, step);
  }

  method RoundStep(lo: real, hi: real, count: int) returns (step: real)
    requires lo < hi
    ensures step == TickStep(lo, hi, count) > 0.0
  {
    var rough := (hi - lo) / AtLeastOne(count) as real;
    assert rough == Rough(lo, hi, AtLeastOne(count));
    var mag := Pow10(Exponent(rough));
    var norm := rough / mag;
    step := (if norm <= 1.5 then 1.0 else if norm <= 3.0 then 2.0 else if norm <= 7.0 then 5.0 else 10.0) * mag;
  }

  /** The for loop: v steps up from the first multiple. */
  method Walk(lo: real, hi: real, step: real) returns (out: seq<real>)
    requires step > 0.0
    ensures out == Multiples(lo, hi, step)
  {
    out := [];
    var v := Ceil(lo / step) as real * step;
    ghost var first, last := Ceil(lo / step), (hi / step + SLACK).Floor;
    while v <= hi + step * SLACK
      invariant v == Multiple(first + |out|, step)
      invariant |out| > 0 ==> first + |out| - 1 <= last
      invariant forall j :: 0 <= j < |out| ==> out[j] == Multiple(first + j, step)
      decreases last - first - |out|
    {
      InRange(hi, step, first + |out|);
      Advance(first + |out|, step);
      out := out + [v];
      v := v + step;
    }
    InRange(hi, step, first + |out|);
    assert |out| == |Multiples(lo, hi, step)|;
  }

  lemma Advance(k: int, step: real)
    ensures Multiple(k, step) + step == Multiple(k + 1, step)
  {
  }

  lemma InRange(hi: real, step: real, k: int)
    requires step > 0.0
    ensures Multiple(k, step) <= hi + step * SLACK <==> k <= (hi / step + SLACK).Floor
  {
    var y := hi / step;
    assert y * step == hi;
    SmallExcess(hi, y, step, k);
    assert k <= (y + SLACK).Floor <==> k as real <= y + SLACK;
  }

  lemma SmallExcess(hi: real, y: real, step: real, k: int)
    requires step > 0.0 && y * step == hi
    ensures Multiple(k, step) <= hi + step * SLACK <==> k as real <= y + SLACK
  {
    MulLe(k as real, y + SLACK, step);
    assert (y + SLACK) * step == y * step + step * SLACK;
  }

  lemma FromBelow(lo: real, step: real, k: int)
    requires step > 0.0
    ensures lo <= Multiple(k, step) <==> Ceil(lo / step) <= k
  {
    var x := lo / step;
    assert x * step == lo;
    MulLe(x, k as real, step);
    assert Ceil(x) <= k <==> x <= k as real;
  }

  lemma MultiplesIncrease(i: int, j: int, step: real)
    requires step > 0.0
    ensures Multiple(i, step) < Multiple(j, step) <==> i < j
  {
    MulLe(j as real, i as real, step);
  }

  // ---------------------------------------------------------------- what the ticks are

  /** A step is within a factor 2/3 .. 5/3 of the spacing asked for. */
  lemma StepFitsRough(rough: real)
    requires rough > 0.0
    ensures 0.6 * Step(rough) < rough <= 1.5 * Step(rough)
  {
    NiceFitsNorm(Norm(rough));
    ScaleNice(Pow10(Exponent(rough)), Norm(rough), Nice(Norm(rough)), rough, Step(rough));
  }

  lemma NormIsInRange(rough: real, mag: real, norm: real)
    requires mag > 0.0 && mag <= rough < 10.0 * mag && norm == rough / mag
    ensures Times(norm, mag) == rough && 1.0 <= norm < 10.0
  {
    assert norm * mag == rough;
    MulLe(1.0, norm, mag);
    MulLe(10.0, norm, mag);
  }

  lemma NiceFitsNorm(norm: real)
    requires 1.0 <= norm < 10.0
    ensures 0.6 * Nice(norm) < norm <= 1.5 * Nice(norm)
  {
  }

  lemma ScaleNice(mag: real, norm: real, nice: real, rough: real, step: real)
    requires mag > 0.0 && nice > 0.0 && Times(norm, mag) == rough && Times(nice, mag) == step
    requires 0.6 * nice < norm <= 1.5 * nice
    ensures 0.6 * step < rough <= 1.5 * step
  {
    MulLe(norm, 1.5 * nice, mag);
    MulLe(norm, 0.6 * nice, mag);
    assert 1.5 * nice * mag == 1.5 * (nice * mag) && 0.6 * nice * mag == 0.6 * (nice * mag);
  }
  /** Measured in steps, the axis is between 0.6 and 1.5 times as long as the number of intervals asked for. */
  lemma LengthInSteps(lo: real, hi: real, c: int, step: real)
    requires c >= 1 && step > 0.0
    requires var rough := (hi - lo) / c as real; 0.6 * step < rough <= 1.5 * step
    ensures 0.6 * c as real < hi / step - lo / step <= 1.5 * c as real
  {
    var rough, n := (hi - lo) / c as real, c as real;
    assert rough * n == hi - lo;
    var w := hi / step - lo / step;
    assert w * step == hi - lo by { assert hi / step * step == hi && lo / step * step == lo; }
    CancelStep(rough, n, w, step);
  }

  lemma CancelStep(rough: real, n: real, w: real, step: real)
    requires n > 0.0 && step > 0.0 && w * step == rough * n && 0.6 * step < rough <= 1.5 * step
    ensures 0.6 * n < w <= 1.5 * n
  {
    MulLe(rough, 1.5 * step, n);
    MulLe(rough, 0.6 * step, n);
    assert 1.5 * step * n == 1.5 * n * step && 0.6 * step * n == 0.6 * n * step;
    MulLe(w, 1.5 * n, step);
    MulLe(w, 0.6 * n, step);
  }

  lemma CountBounds(x: real, y: real, c: int)
    requires c >= 1 && 0.6 * c as real < y - x <= 1.5 * c as real
    ensures 3 * c / 5 <= (y + SLACK).Floor - Ceil(x) + 1 <= 3 * c / 2 + 1
  {
  }

  /** The axis always gets between floor(0.6 c) and floor(1.5 c) + 1 ticks, where c is the count asked for. */
  lemma TickCount(min: real, max: real, count: int)
    requires min <= max
    ensures var c := AtLeastOne(count); 3 * c / 5 <= |Ticks(min, max, count)| <= 3 * c / 2 + 1
  {
    var (lo, hi) := Padded(min, max);
    var c := AtLeastOne(count);
    var rough := (hi - lo) / c as real;
    assert rough > 0.0;
    var step := Step(rough);
    StepFitsRough(rough);
    LengthInSteps(lo, hi, c, step);
    CountBounds(lo / step, hi / step, c);
  }

  /** The ticks are exactly the multiples of the step that lie on the axis (give or take a billionth of a step at its
      upper end), each once and in increasing order. */
  lemma TicksAreMultiples(lo: real, hi: real, step: real)
    requires step > 0.0
    ensures var ts := Multiples(lo, hi, step);
            && (forall i, j :: 0 <= i < j < |ts| ==> ts[i] < ts[j])
            && (forall k :: Multiple(k, step) in ts <==> lo <= Multiple(k, step) <= hi + step * SLACK)
            && (forall j :: 0 <= j < |ts| ==> exists k :: ts[j] == Multiple(k, step))
  {
    var ts := Multiples(lo, hi, step);
    var first, last := Ceil(lo / step), (hi / step + SLACK).Floor;
    forall i, j | 0 <= i < j < |ts| ensures ts[i] < ts[j] {
      MultiplesIncrease(first + i, first + j, step);
    }
    forall k ensures Multiple(k, step) in ts <==> lo <= Multiple(k, step) <= hi + step * SLACK {
      FromBelow(lo, step, k);
      InRange(hi, step, k);
      if first <= k <= last {
        assert ts[k - first] == Multiple(k, step);
      }
      if j :| 0 <= j < |ts| && ts[j] == Multiple(k, step) {
        MultiplesIncrease(first + j, k, step);
        MultiplesIncrease(k, first + j, step);
      }
    }
  }

  // ---------------------------------------------------------------- when there are 3 to 6 ticks

  /** How many steps fit into as many intervals of the spacing asked for as there should be. */
  function StepsFor(norm: real, c: int): real
    requires norm >= 1.0
  {
    c as real * norm / Nice(norm)
  }

  /** How far the first tick is from the lower end, in steps. */
  function Gap(lo: real, step: real): (g: real)
    requires step > 0.0
    ensures 0.0 <= g < 1.0
  {
    Ceil(lo / step) as real - lo / step
  }

  /** The length of the axis in steps depends only on the norm. */
  lemma LengthByNorm(lo: real, hi: real, c: int)
    requires lo < hi && c >= 1
    ensures var rough := Rough(lo, hi, c); hi / Step(rough) - lo / Step(rough) == StepsFor(Norm(rough), c)
  {
    var rough := Rough(lo, hi, c);
    ScaleLength(c, Norm(rough), Pow10(Exponent(rough)), rough, Step(rough), StepsFor(Norm(rough), c));
    LengthIs(lo, hi, Step(rough), StepsFor(Norm(rough), c));
  }

  lemma LengthIs(lo: real, hi: real, step: real, l: real)
    requires step > 0.0 && Times(l, step) == hi - lo
    ensures hi / step - lo / step == l
  {
    WidthInSteps(lo, hi, step);
    Cancel(hi / step - lo / step, l, step);
  }

  lemma WidthInSteps(lo: real, hi: real, step: real)
    requires step > 0.0
    ensures Times(hi / step - lo / step, step) == hi - lo
  {
    Quotient(hi, step);
    Quotient(lo, step);
    Distribute(hi / step, lo / step, step);
  }

  lemma Distribute(x: real, y: real, z: real)
    ensures Times(x - y, z) == Times(x, z) - Times(y, z)
  {
  }

  lemma Cancel(x: real, y: real, z: real)
    requires z > 0.0 && Times(x, z) == Times(y, z)
    ensures x == y
  {
    MulLe(x, y, z);
    MulLe(y, x, z);
  }

  lemma ScaleLength(c: int, norm: real, mag: real, rough: real, step: real, l: real)
    requires norm >= 1.0 && l == StepsFor(norm, c) && step == Times(Nice(norm), mag) && rough == Times(norm, mag)
    ensures Times(l, step) == Times(rough, c as real)
  {
    Quotient(c as real * norm, Nice(norm));
    Rescale(c as real, norm, Nice(norm), mag, l);
  }

  lemma Rescale(n: real, norm: real, nice: real, mag: real, l: real)
    requires Times(l, nice) == n * norm
    ensures Times(l, Times(nice, mag)) == Times(Times(norm, mag), n)
  {
    Regroup(l, nice, mag);
    Regroup(n, norm, mag);
    Swap(n, norm * mag);
  }

  lemma Swap(x: real, y: real)
    ensures x * y == Times(y, x)
  {
  }

  lemma Regroup(x: real, y: real, z: real)
    ensures x * y * z == x * (y * z)
  {
  }

  /** As many steps as fit behind the first tick, which is one more tick each. */
  function TicksIn(norm: real, c: int, gap: real): int
    requires norm >= 1.0
  {
    var room := StepsFor(norm, c) + SLACK - gap;
    if room < 0.0 then 0 else room.Floor + 1
  }

  /** The exact number of ticks, for every axis and every count. */
  lemma TicksByNorm(min: real, max: real, count: int)
    requires min <= max
    ensures var (lo, hi) := Padded(min, max);
            var rough := Rough(lo, hi, AtLeastOne(count));
            |Ticks(min, max, count)| == TicksIn(Norm(rough), AtLeastOne(count), Gap(lo, Step(rough)))
  {
    var (lo, hi) := Padded(min, max);
    var c := AtLeastOne(count);
    var rough := Rough(lo, hi, c);
    LengthByNorm(lo, hi, c);
    CountBehindFirst(lo, hi, Step(rough), StepsFor(Norm(rough), c));
  }

  lemma CountBehindFirst(lo: real, hi: real, step: real, l: real)
    requires step > 0.0 && hi / step - lo / step == l
    ensures var room := l + SLACK - Gap(lo, step); |Multiples(lo, hi, step)| == if room < 0.0 then 0 else room.Floor + 1
  {
    CountShifted(lo / step, hi / step);
  }

  lemma CountShifted(x: real, y: real)
    ensures var room, n := y - x + SLACK - (Ceil(x) as real - x), (y + SLACK).Floor - Ceil(x) + 1;
            (if n < 0 then 0 else n) == if room < 0.0 then 0 else room.Floor + 1
  {
    FloorShift(y + SLACK, Ceil(x));
  }

  lemma FloorShift(y: real, k: int)
    ensures (y - k as real).Floor == y.Floor - k && (y - k as real < 0.0 <==> y.Floor < k)
  {
  }

  ghost predicate ThreeToSix(lo: real, rough: real) { 3 <= |Ticks(lo, lo + 4.0 * rough, 4)| <= 6 }

  /** Too few ticks may come: the step was rounded up by a third or more. */
  predicate Coarse(norm: real) {
    3.0 < norm < 3.75 - 1.25 * SLACK || 7.0 < norm < 7.5 - 2.5 * SLACK
  }

  /** Too many ticks may come: the step was rounded down by a third, or as good as that. */
  predicate Fine(norm: real) {
    1.5 - 0.25 * SLACK <= norm <= 1.5 || 3.0 - 0.5 * SLACK <= norm <= 3.0
  }

  lemma StepsForFour(norm: real)
    requires 1.0 <= norm < 10.0
    ensures 2.4 < StepsFor(norm, 4) <= 6.0
    ensures Coarse(norm) <==> StepsFor(norm, 4) + SLACK < 3.0
    ensures Fine(norm) <==> StepsFor(norm, 4) + SLACK >= 6.0
  {
  }

  /** The default count of four is said to give 3 to 6 ticks.  An axis four spacings long is sure to, wherever it lies, if
      and only if the spacing avoids the four ranges of norms just above 3 and 7 and just below 1.5 and 3. */
  lemma ThreeToSixTicksIff(rough: real)
    requires rough > 0.0
    ensures (forall lo :: ThreeToSix(lo, rough)) <==> !Coarse(Norm(rough)) && !Fine(Norm(rough))
  {
    StepsForFour(Norm(rough));
    if Coarse(Norm(rough)) {
      var lo := TwoTicks(rough);
      assert !ThreeToSix(lo, rough);
    } else if Fine(Norm(rough)) {
      SevenTicks(rough);
      assert !ThreeToSix(0.0, rough);
    } else {
      forall lo ensures ThreeToSix(lo, rough) { TicksOfFour(lo, rough); }
    }
  }

  lemma TicksOfFour(lo: real, rough: real)
    requires rough > 0.0
    ensures |Ticks(lo, lo + 4.0 * rough, 4)| == TicksIn(Norm(rough), 4, Gap(lo, Step(rough)))
  {
    assert Rough(lo, lo + 4.0 * rough, 4) == rough;
    TicksByNorm(lo, lo + 4.0 * rough, 4);
  }

  /** Each spacing of the first kind has an axis with two ticks: its first tick comes late. */
  lemma TwoTicks(rough: real) returns (lo: real)
    requires rough > 0.0 && Coarse(Norm(rough))
    ensures |Ticks(lo, lo + 4.0 * rough, 4)| == 2
  {
    var g := (StepsFor(Norm(rough), 4) + SLACK - 1.0) / 2.0;
    StepsForFour(Norm(rough));
    lo := Multiplied(-g, Step(rough));
    TicksOfFour(lo, rough);
  }

  lemma Multiplied(x: real, step: real) returns (lo: real)
    requires step > 0.0
    ensures lo / step == x
  {
    lo := Times(x, step);
    Quotient(lo, step);
    Cancel(lo / step, x, step);
  }

  /** Each of the second kind has one with seven: its first tick is at the lower end. */
  lemma SevenTicks(rough: real)
    requires rough > 0.0 && Fine(Norm(rough))
    ensures |Ticks(0.0, 0.0 + 4.0 * rough, 4)| == 7
  {
    StepsForFour(Norm(rough));
    assert 0.0 / Step(rough) == 0.0;
    TicksOfFour(0.0, rough);
  }

  /** For instance: the default count of four gives two ticks from 1 to 13.1, and seven from 0 to 6. */
  lemma ExtremesForFour()
    ensures |Ticks(1.0, 13.1, 4)| == 2 && |Ticks(0.0, 6.0, 4)| == 7
  {
    NormNearOne(3.025);
    assert Gap(1.0, 5.0) == 0.8;
    TicksOfFour(1.0, 3.025);
    NormNearOne(1.5);
    assert Gap(0.0, 1.0) == 0.0;
    TicksOfFour(0.0, 1.5);
  }

  lemma NormNearOne(r: real)
    requires 1.0 <= r < 10.0
    ensures Norm(r) == r && Step(r) == Nice(r)
  {
    assert Exponent(r) == 0 && Pow10(0) == 1.0;
  }
}
