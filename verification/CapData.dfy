/** Snapping a requested power limit to the range the firmware advertises
    (`capdata_clamp`, `clamped_value`), in the 32-bit arithmetic of the driver. */
module CapData {
  import opened MachineInts

  datatype Capability = Capability(id: u32, supported: u32, step: u32, minValue: u32, maxValue: u32)

  datatype DiscreteFeature = DiscreteFeature(featureId: u32, values: seq<i32>)

  // ---- the step grid ----

  /** The dividend of `DIV_ROUND_CLOSEST(value - cd->min_value, cd->step)`. The step is
      unsigned, so the macro takes its unsigned branch for every offset; a negative
      offset, as an int, is carried around 2^32. */
  function Dividend(lo: u32, step: u32, value: i32): (u: u32)
    ensures lo < TWO_31 && step < TWO_31 ==>
              var t := value - lo + step / 2; u == if t >= 0 then t else t + TWO_32
  {
    var offset := ToI32(value - lo);
    OffsetWraps(value - lo, step / 2);
    ToU32(ToU32(offset) + step / 2)
  }

  function Snapped(cd: Capability, value: i32): i32
    requires cd.step > 0
  {
    ToI32(cd.minValue + ToU32(RoundedDown(Dividend(cd.minValue, cd.step, value), cd.step)))
  }

  /** The largest multiple of d that is at most t, as a division and a multiplication. */
  function RoundedDown(t: int, d: int): (r: int)
    requires d > 0
    ensures t - d < r <= t && (0 <= t ==> 0 <= r)
  {
    QuotientBounds(t, d);
    t / d * d
  }

  function Stepped(cd: Capability, value: i32): i32
    requires cd.step > 0
  {
    Clamp(Snapped(cd, value), ToI32(cd.minValue), ToI32(cd.maxValue))
  }

  /** `abs(a - b)` on ints. */
  function AbsDiff(a: i32, b: i32): i32
  {
    ToI32(Abs(ToI32(a - b)))
  }

  /** The best of values[..k] as the loop finds it. */
  function Best(value: i32, values: seq<i32>, k: nat): i32
    requires 1 <= k <= |values|
  {
    BestBy((v: i32) => AbsDiff(value, v), values, k)
  }

  function BestBy(look: i32 -> int, values: seq<i32>, k: nat): i32
    requires 1 <= k <= |values|
  {
    if k == 1 then values[0]
    else
      var best := BestBy(look, values, k - 1);
      if look(values[k - 1]) < look(best) then values[k - 1] else best
  }

  function ClampedTo(cd: Option<Capability>, value: i32, df: Option<DiscreteFeature>): i32
  {
    match cd
    case None => value
    case Some(c) =>
      if c.step == 0 then
        if df.None? || |df.value.values| < 1 then value
        else Best(value, df.value.values, |df.value.values|)
      else Stepped(c, value)
  }

  method CapdataClamp(cd: Option<Capability>, value: i32, df: Option<DiscreteFeature>) returns (r: i32)
    ensures r == ClampedTo(cd, value, df)
    ensures cd.None? ==> r == value
    ensures cd.Some? && cd.value.step == 0 ==>
              if df.None? || df.value.values == [] then r == value
              else
                && r in df.value.values
                && (DifferencesFit(value, df.value.values) ==>
                      forall v | v in df.value.values :: Abs(value - r) <= Abs(value - v))
    ensures cd.Some? && Sane(cd.value) && FarFromEnds(cd.value, value) ==> r == Nearest(cd.value, value)
  {
    ClampMeans(cd, value, df);
    if cd.None? {
      return value;
    }
    var c := cd.value;
    if c.step == 0 {
      if df.None? || |df.value.values| < 1 {
        return value;
      }
      r := NearestListed(value, df.value.values);
      return;
    }
    var offset := ToI32(value - c.minValue);
    var quotient := ToU32(ToU32(offset) + c.step / 2) / c.step;
    var snapped := ToI32(c.minValue + ToU32(quotient * c.step));
    r := Clamp(snapped, ToI32(c.minValue), ToI32(c.maxValue));
  }

  /** The scan of the advertised values. */
  method NearestListed(value: i32, values: seq<i32>) returns (r: i32)
    requires values != []
    ensures r == Best(value, values, |values|)
  {
    r := values[0];
    for i := 1 to |values|
      invariant r == Best(value, values, i)
    {
      if AbsDiff(value, values[i]) < AbsDiff(value, r) {
        r := values[i];
      }
    }
  }

  /** The advertised range is a range of ints, and so is its step. */
  predicate Sane(cd: Capability)
  {
    0 < cd.step < TWO_31 && cd.minValue <= cd.maxValue < TWO_31
  }

  /** The range has at least two points on its grid. */
  predicate Wide(cd: Capability) { cd.minValue + cd.step <= cd.maxValue }

  /** The grid point meant: in unbounded arithmetic, halves rounded up, clamped. */
  function Nearest(cd: Capability, value: int): int
    requires cd.step > 0
  {
    if value <= cd.minValue then cd.minValue
    else Clamp(cd.minValue + RoundedDown(value - cd.minValue + cd.step / 2, cd.step), cd.minValue, cd.maxValue)
  }

  /** The snapped value before its last conversion to int wraps it: offsets below the
      minimum have been carried around 2^32 and so land on a shifted grid. */
  function Unwrapped(cd: Capability, value: int): int
    requires cd.step > 0
  {
    var t := value - cd.minValue + cd.step / 2;
    if t >= 0 then cd.minValue + RoundedDown(t, cd.step)
    else cd.minValue + RoundedDown(t + TWO_32, cd.step) - TWO_32
  }

  lemma QuotientBounds(t: int, d: int)
    requires d > 0
    ensures t - d < t / d * d <= t
    ensures 0 <= t ==> 0 <= t / d * d
  {
    assert t == t / d * d + t % d;
    DivAdjoint(t, d, 0);
    if 0 <= t {
      assert t / d * d >= 0;
    }
  }

  lemma SnappedIsUnwrapped(cd: Capability, value: i32)
    requires Sane(cd)
    ensures Snapped(cd, value) == ToI32(Unwrapped(cd, value))
  {
    var u := Dividend(cd.minValue, cd.step, value);
    UnwrappedOf(cd, value, u);
    WrapIsTheSame(cd.minValue, RoundedDown(u, cd.step), Unwrapped(cd, value));
  }

  lemma UnwrappedOf(cd: Capability, value: i32, u: int)
    requires Sane(cd) && var t := value - cd.minValue + cd.step / 2; u == if t >= 0 then t else t + TWO_32
    ensures var s := cd.minValue + RoundedDown(u, cd.step);
            Unwrapped(cd, value) == s || Unwrapped(cd, value) == s - TWO_32
  {
  }

  lemma WrapIsTheSame(lo: int, p: int, s: int)
    requires 0 <= p < TWO_32 && (s == lo + p || s == lo + p - TWO_32)
    ensures ToI32(lo + ToU32(p)) == ToI32(s)
  {
    InRangeIsKept(p);
    ToI32IsPeriodic(lo + p);
  }

  lemma OffsetWraps(d: int, half: int)
    ensures -TWO_32 <= d && d + half < TWO_32 && 0 <= half ==>
              ToU32(ToU32(ToI32(d)) + half) == (if d + half >= 0 then d + half else d + half + TWO_32)
  {
    ToU32OfToI32(d);
  }

  lemma ToU32OfToI32(x: int)
    ensures ToU32(ToI32(x)) == ToU32(x)
  {
  }

  lemma ToI32IsPeriodic(x: int)
    ensures ToI32(x - TWO_32) == ToI32(x)
  {
  }

  /** The unwrapped value lies within half a step above, and less than one step below
      the rounding point of, the request. */
  lemma UnwrappedBounds(cd: Capability, value: i32)
    requires Sane(cd)
    ensures value + cd.step / 2 - cd.step < Unwrapped(cd, value) <= value + cd.step / 2
  {
  }

  /** Exactly when the wrap is harmless: the clamp gives the nearest grid point if and
      only if the snapped value, taken without wrapping, is an int, or the range is a
      single value, or it starts so high that a value carried around from below is still
      not above its minimum. On a range of two grid points or more the first case is the
      only one. */
  lemma SteppedIsNearestIff(cd: Capability, value: i32)
    requires Sane(cd)
    ensures var s := Unwrapped(cd, value);
            && (Stepped(cd, value) == Nearest(cd, value)
                <==> || -TWO_31 <= s < TWO_31
                     || cd.minValue == cd.maxValue
                     || (s < -TWO_31 && s + TWO_32 <= cd.minValue))
            && (Wide(cd) ==> (Stepped(cd, value) == Nearest(cd, value) <==> -TWO_31 <= s < TWO_31))
  {
    SteppedIsClampedWrap(cd, value);
    NearestIsClampedUnwrapped(cd, value);
    UnwrappedBounds(cd, value);
    WrappingChangesClampIff(Unwrapped(cd, value), cd.minValue, cd.maxValue, cd.step);
  }

  lemma SteppedIsClampedWrap(cd: Capability, value: i32)
    requires Sane(cd)
    ensures Stepped(cd, value) == Clamp(ToI32(Unwrapped(cd, value)), cd.minValue, cd.maxValue)
  {
    SnappedIsUnwrapped(cd, value);
    InRangeIsKept(cd.minValue);
    InRangeIsKept(cd.maxValue);
  }

  lemma InRangeIsKept(x: int)
    ensures 0 <= x < TWO_31 ==> ToI32(x) == x
    ensures 0 <= x < TWO_32 ==> ToU32(x) == x
  {
  }

  lemma WrappingChangesClampIff(s: int, lo: int, hi: int, step: int)
    requires 0 < step < TWO_31 && 0 <= lo <= hi < TWO_31
    requires -TWO_31 - step < s < TWO_31 + step
    ensures Clamp(ToI32(s), lo, hi) == Clamp(s, lo, hi)
            <==> -TWO_31 <= s < TWO_31 || lo == hi || (s < -TWO_31 && s + TWO_32 <= lo)
    ensures lo + step <= hi ==> (s < -TWO_31 ==> s + TWO_32 > lo)
  {
    ToI32IsPeriodic(s + TWO_32);
    ToI32IsPeriodic(s);
    if s < -TWO_31 {
      assert ToI32(s) == s + TWO_32;
    } else if s >= TWO_31 {
      assert ToI32(s) == s - TWO_32;
    }
  }

  /** In unbounded arithmetic the shifted grid below the minimum is clamped away. */
  lemma NearestIsClampedUnwrapped(cd: Capability, value: i32)
    requires Sane(cd)
    ensures Nearest(cd, value) == Clamp(Unwrapped(cd, value), cd.minValue, cd.maxValue)
  {
    UnwrappedBounds(cd, value);
    var t := value - cd.minValue + cd.step / 2;
    if value <= cd.minValue && t >= 0 {
      DivUnique(t, cd.step, 0);
    }
  }

  /** A range a caller can check: one step away from both ends of int is enough. */
  predicate FarFromEnds(cd: Capability, value: int)
  {
    -TWO_31 + cd.step <= value < TWO_31 - cd.step
  }

  /** Every request one step inside int snaps to the grid as meant; in particular every
      request below the minimum gives the minimum, in spite of the unsigned wrap. */
  lemma SteppedIsNearest(cd: Capability, value: i32)
    requires Sane(cd) && FarFromEnds(cd, value)
    ensures Stepped(cd, value) == Nearest(cd, value)
    ensures value <= cd.minValue ==> Stepped(cd, value) == cd.minValue
  {
    UnwrappedBounds(cd, value);
    SteppedIsClampedWrap(cd, value);
    NearestIsClampedUnwrapped(cd, value);
    IntIsKept(Unwrapped(cd, value));
  }

  lemma IntIsKept(x: int)
    requires -TWO_31 <= x < TWO_31
    ensures ToI32(x) == x
  {
  }

  /** Closer to the ends it does go wrong: the most negative request is answered with
      the maximum. */
  lemma MostNegativeRequestGivesMaximum()
    ensures var cd := Capability(0, 1, 5, 26, 61);
            Sane(cd) && Stepped(cd, -TWO_31) == 61
  {
    var cd := Capability(0, 1, 5, 26, 61);
    assert Unwrapped(cd, -TWO_31) == -TWO_31 - 2;
    SteppedIsClampedWrap(cd, -TWO_31);
    assert ToI32(-TWO_31 - 2) == TWO_31 - 2;
  }

  predicate OnGrid(cd: Capability, x: int)
    requires cd.step > 0
  {
    cd.minValue <= x <= cd.maxValue && (x - cd.minValue) % cd.step == 0
  }

  predicate WholeGrid(cd: Capability)
  {
    Sane(cd) && (cd.maxValue - cd.minValue) % cd.step == 0
  }

  lemma NearestIsMultiple(cd: Capability, value: int) returns (k: int)
    requires WholeGrid(cd)
    ensures 0 <= k && Nearest(cd, value) == cd.minValue + k * cd.step
    ensures OnGrid(cd, Nearest(cd, value))
  {
    var width := cd.maxValue - cd.minValue;
    assert width == width / cd.step * cd.step;
    if value <= cd.minValue {
      k := 0;
    } else {
      var t := value - cd.minValue + cd.step / 2;
      QuotientBounds(t, cd.step);
      k := if Nearest(cd, value) == cd.maxValue then width / cd.step else t / cd.step;
      DivAdjoint(t, cd.step, 0);
      DivAdjoint(width, cd.step, 0);
    }
    MultipleHasNoRemainder(k, cd.step);
  }

  lemma MultipleHasNoRemainder(k: int, d: int)
    requires d > 0
    ensures k * d % d == 0
  {
    DivUnique(k * d, d, k);
  }

  /** When the range is a whole number of steps, the answer is a grid point inside the
      range and no grid point is nearer to the request. */
  lemma NearestGridPoint(cd: Capability, value: int, x: int)
    requires WholeGrid(cd) && OnGrid(cd, x)
    ensures OnGrid(cd, Nearest(cd, value))
    ensures Abs(value - Nearest(cd, value)) <= Abs(value - x)
  {
    var k := NearestIsMultiple(cd, value);
    NoGridPointIsNearer(cd, value, x);
  }

  lemma NoGridPointIsNearer(cd: Capability, value: int, x: int)
    requires 0 < cd.step && OnGrid(cd, x)
    ensures Abs(value - Nearest(cd, value)) <= Abs(value - x)
  {
    if value > cd.minValue {
      var d := value - cd.minValue;
      NearestOnGrid(d, x - cd.minValue, cd.step);
      ClampStaysNearest(value, cd.minValue + RoundedDown(d + cd.step / 2, cd.step), x, cd.minValue, cd.maxValue);
    }
  }

  lemma NearestOnGrid(d: int, y: int, step: int)
    requires step > 0 && y % step == 0
    ensures Abs(d - RoundedDown(d + step / 2, step)) <= Abs(d - y)
  {
    assert y == y / step * step;
    NearestMultiple(d, y / step, step);
  }

  lemma ClampStaysNearest(v: int, s: int, x: int, lo: int, hi: int)
    requires lo <= x <= hi && Abs(v - s) <= Abs(v - x)
    ensures Abs(v - Clamp(s, lo, hi)) <= Abs(v - x)
  {
  }

  /** No multiple is nearer to d than the one rounding to nearest picks. */
  lemma NearestMultiple(d: int, j: int, step: int)
    requires step > 0
    ensures Abs(d - (d + step / 2) / step * step) <= Abs(d - j * step)
  {
    QuotientBounds(d + step / 2, step);
    MultiplesAreApart((d + step / 2) / step, j, step);
  }

  lemma MultiplesAreApart(q: int, j: int, d: int)
    requires d > 0
    ensures j < q ==> j * d + d <= q * d
    ensures q < j ==> q * d + d <= j * d
  {
    if j < q {
      MulSuccessor(j, d);
      MulMonotone(j + 1, q, d);
    } else if q < j {
      MulSuccessor(q, d);
      MulMonotone(q + 1, j, d);
    }
  }

  lemma NearestIsMonotone(cd: Capability, v: int, w: int)
    requires Sane(cd) && v <= w
    ensures Nearest(cd, v) <= Nearest(cd, w)
  {
    if cd.minValue < w {
      var s, t := v - cd.minValue + cd.step / 2, w - cd.minValue + cd.step / 2;
      RoundDownMonotone(s, t, cd.step);
      RoundDownMonotone(0, t, cd.step);
    }
  }

  lemma RoundDownMonotone(s: int, t: int, d: int)
    requires d > 0
    ensures s <= t ==> s / d * d <= t / d * d
    ensures 0 / d * d == 0
  {
    DivUnique(0, d, 0);
    if s <= t {
      DivAdjoint(s, d, s / d);
      DivAdjoint(t, d, s / d);
      assert (t / d - s / d) * d >= 0;
    }
  }

  lemma NearestIsIdempotent(cd: Capability, value: int)
    requires WholeGrid(cd)
    ensures Nearest(cd, Nearest(cd, value)) == Nearest(cd, value)
  {
    var k := NearestIsMultiple(cd, value);
    DivUnique(k * cd.step + cd.step / 2, cd.step, k);
  }

  /** The driver's own arithmetic, for every request one step inside int: the answer is
      a nearest grid point, grows with the request and is a fixed point. */
  lemma SteppedSnapsToGrid(cd: Capability, v: i32, w: i32, x: int)
    requires WholeGrid(cd) && cd.maxValue + cd.step < TWO_31 && OnGrid(cd, x)
    requires FarFromEnds(cd, v) && FarFromEnds(cd, w)
    ensures OnGrid(cd, Stepped(cd, v)) && Abs(v - Stepped(cd, v)) <= Abs(v - x)
    ensures v <= w ==> Stepped(cd, v) <= Stepped(cd, w)
    ensures Stepped(cd, Stepped(cd, v)) == Stepped(cd, v)
  {
    SteppedIsNearest(cd, v);
    SteppedIsNearest(cd, w);
    NearestGridPoint(cd, v, x);
    if v <= w {
      NearestIsMonotone(cd, v, w);
    }
    NearestIsIdempotent(cd, v);
    SteppedIsNearest(cd, Nearest(cd, v));
  }

  /** If the range is not a whole number of steps the maximum itself is off the grid
      and is what every large request gets. */
  lemma AllAnswersOnGridIff(cd: Capability)
    requires Sane(cd)
    ensures (forall v: int :: OnGrid(cd, Nearest(cd, v))) <==> WholeGrid(cd)
  {
    if WholeGrid(cd) {
      forall v: int
        ensures OnGrid(cd, Nearest(cd, v))
      {
        var k := NearestIsMultiple(cd, v);
      }
    } else {
      var v := cd.maxValue + cd.step;
      QuotientBounds(v - cd.minValue + cd.step / 2, cd.step);
      assert Nearest(cd, v) == cd.maxValue;
      assert !OnGrid(cd, Nearest(cd, v));
    }
  }

  /** The same of the driver's own arithmetic, over the requests one step inside int. */
  lemma SteppedOnGridIff(cd: Capability)
    requires Sane(cd) && cd.maxValue + 2 * cd.step < TWO_31
    ensures (forall v: i32 | FarFromEnds(cd, v) :: OnGrid(cd, Stepped(cd, v))) <==> WholeGrid(cd)
  {
    if WholeGrid(cd) {
      forall v: i32 | FarFromEnds(cd, v)
        ensures OnGrid(cd, Stepped(cd, v))
      {
        SteppedIsNearest(cd, v);
        var k := NearestIsMultiple(cd, v);
      }
    } else {
      var v: i32 := cd.maxValue + cd.step;
      QuotientBounds(v - cd.minValue + cd.step / 2, cd.step);
      SteppedIsNearest(cd, v);
      assert Stepped(cd, v) == cd.maxValue && !OnGrid(cd, Stepped(cd, v));
    }
  }

  // ---- discrete values ----

  /** No difference to an advertised value overflows an int. */
  predicate DifferencesFit(value: i32, values: seq<i32>)
  {
    forall v | v in values :: -TWO_31 < value - v < TWO_31
  }

  /** The first of the least. */
  function FirstLeast(ds: seq<int>): (r: nat)
    requires ds != []
    ensures r < |ds| && (forall j | 0 <= j < |ds| :: ds[r] <= ds[j]) && (forall j | 0 <= j < r :: ds[r] < ds[j])
  {
    if |ds| == 1 then 0
    else
      var r := FirstLeast(ds[..|ds| - 1]);
      if ds[|ds| - 1] < ds[r] then |ds| - 1 else r
  }

  function Looks(look: i32 -> int, values: seq<i32>): (ds: seq<int>)
    ensures |ds| == |values| && forall i | 0 <= i < |ds| :: ds[i] == look(values[i])
  {
    seq(|values|, i requires 0 <= i < |values| => look(values[i]))
  }

  /** The loop keeps the first of the values that look nearest, whatever that means. */
  lemma {:induction false} BestIsFirstLeast(look: i32 -> int, values: seq<i32>, k: nat)
    requires 1 <= k <= |values|
    ensures BestBy(look, values, k) == values[FirstLeast(Looks(look, values)[..k])]
    decreases k
  {
    if k > 1 {
      BestIsFirstLeast(look, values, k - 1);
      FirstLeastStep(Looks(look, values), k - 1);
    }
  }

  lemma FirstLeastStep(ds: seq<int>, k: nat)
    requires 1 <= k < |ds|
    ensures var r := FirstLeast(ds[..k]); FirstLeast(ds[..k + 1]) == if ds[k] < ds[r] then k else r
  {
    assert ds[..k + 1][..k] == ds[..k];
  }

  /** The loop keeps a nearest value, and of equally near ones the first. */
  lemma BestIsFirstNearest(value: i32, values: seq<i32>, k: nat) returns (i: nat)
    requires 1 <= k <= |values| && DifferencesFit(value, values)
    ensures i < k && Best(value, values, k) == values[i]
    ensures forall j | 0 <= j < k :: Abs(value - values[i]) <= Abs(value - values[j])
    ensures forall j | 0 <= j < i :: Abs(value - values[i]) < Abs(value - values[j])
  {
    var look := (v: i32) => AbsDiff(value, v);
    var ds := Looks(look, values);
    BestIsFirstLeast(look, values, k);
    i := FirstLeast(ds[..k]);
    forall j | 0 <= j < k
      ensures ds[..k][j] == Abs(value - values[j])
    {
      assert values[j] in values;
      AbsDiffFits(value, values[j]);
    }
  }

  lemma AbsDiffFits(a: i32, b: i32)
    requires -TWO_31 < a - b < TWO_31
    ensures AbsDiff(a, b) == Abs(a - b)
  {
  }

  function Distances(value: i32, values: seq<i32>): (ds: seq<int>)
    ensures |ds| == |values| && forall i | 0 <= i < |ds| :: ds[i] == Abs(value - values[i])
  {
    seq(|values|, i requires 0 <= i < |values| => Abs(value - values[i]))
  }

  /** What a distance looks like to the driver. */
  function Seen(d: nat): int { if d < TWO_31 then d else if d == TWO_31 then -TWO_31 else TWO_32 - d }

  function SeenDistances(value: i32, values: seq<i32>): (ds: seq<int>)
    ensures |ds| == |values| && forall i | 0 <= i < |ds| :: ds[i] == Seen(Abs(value - values[i]))
  {
    seq(|values|, i requires 0 <= i < |values| => Seen(Abs(value - values[i])))
  }

  lemma AbsDiffIsSeen(a: i32, b: i32)
    ensures AbsDiff(a, b) == Seen(Abs(a - b))
  {
  }

  lemma BestLooksNearest(value: i32, values: seq<i32>)
    requires values != []
    ensures Best(value, values, |values|) == values[FirstLeast(SeenDistances(value, values))]
  {
    var look := (v: i32) => AbsDiff(value, v);
    BestIsFirstLeast(look, values, |values|);
    forall j | 0 <= j < |values|
      ensures Looks(look, values)[j] == SeenDistances(value, values)[j]
    {
      AbsDiffIsSeen(value, values[j]);
    }
    assert Looks(look, values)[..|values|] == SeenDistances(value, values);
  }

  /** A value at distance `far` looks nearer than one at the smaller distance `near`, or as
      near and comes before it. */
  predicate Overtakes(near: nat, far: nat, before: bool)
  {
    if near < TWO_31 then far == TWO_31 || far + near > TWO_32 || (before && far + near == TWO_32)
    else near > TWO_31 && far > near
  }

  /** The loop finds the first of the nearest values exactly when no other value overtakes
      it by overflow. */
  lemma BestIsFirstNearestIff(value: i32, values: seq<i32>)
    requires values != []
    ensures var ds := Distances(value, values);
            var i := FirstLeast(ds);
            Best(value, values, |values|) == values[i]
            <==> forall j | 0 <= j < |values| :: !Overtakes(ds[i], ds[j], j < i)
  {
    var ds, seen := Distances(value, values), SeenDistances(value, values);
    BestLooksNearest(value, values);
    SameLeastIff(ds, seen);
    var i, b := FirstLeast(ds), FirstLeast(seen);
    if values[b] == values[i] { assert ds[b] == ds[i] && seen[b] == seen[i]; }
  }

  /** The first of the least true distances is the first of the least seen ones. */
  lemma SameLeastIff(ds: seq<int>, seen: seq<int>)
    requires |ds| == |seen| > 0
    requires forall j | 0 <= j < |ds| :: 0 <= ds[j] < TWO_32 && seen[j] == Seen(ds[j])
    ensures var i := FirstLeast(ds);
            FirstLeast(seen) == i <==> forall j | 0 <= j < |ds| :: !Overtakes(ds[i], ds[j], j < i)
  {
    var i := FirstLeast(ds);
    forall j | 0 <= j < |ds|
      ensures Overtakes(ds[i], ds[j], j < i) <==> seen[j] < seen[i] || (seen[j] == seen[i] && j < i)
    {
      OvertakesIff(ds[i], ds[j], j < i);
    }
  }

  lemma OvertakesIff(near: nat, far: nat, before: bool)
    requires near <= far < TWO_32 && (before ==> near < far)
    ensures Overtakes(near, far, before) <==> Seen(far) < Seen(near) || (Seen(far) == Seen(near) && before)
  {
  }

  /** A difference that overflows looks small: the farthest value is taken. */
  lemma OverflowingDifferenceWins()
    ensures Best(0x7FFF_FFFF, [5, -TWO_31], 2) == -TWO_31
  {
    assert AbsDiff(0x7FFF_FFFF, -TWO_31) == 1;
    assert Best(0x7FFF_FFFF, [5, -TWO_31], 1) == 5;
  }

  // ---- the clamp as a whole ----

  lemma ClampMeans(cd: Option<Capability>, value: i32, df: Option<DiscreteFeature>)
    ensures var r := ClampedTo(cd, value, df);
            && (cd.None? ==> r == value)
            && (cd.Some? && cd.value.step == 0 ==>
                  if df.None? || df.value.values == [] then r == value
                  else
                    && r in df.value.values
                    && (DifferencesFit(value, df.value.values) ==>
                          forall v | v in df.value.values :: Abs(value - r) <= Abs(value - v)))
            && (cd.Some? && Sane(cd.value) && FarFromEnds(cd.value, value) ==> r == Nearest(cd.value, value))
  {
    if cd.Some? && cd.value.step == 0 && df.Some? && df.value.values != [] {
      var vs := df.value.values;
      BestLooksNearest(value, vs);
      if DifferencesFit(value, vs) { var i := DiscreteAnswerIsFirstNearest(cd.value, value, df.value); }
    } else if cd.Some? && Sane(cd.value) && FarFromEnds(cd.value, value) {
      SteppedIsNearest(cd.value, value);
    }
  }

  /** With step 0 and no difference overflowing, the answer is an advertised value, none is
      nearer to the request, and every one as near comes after it. */
  lemma DiscreteAnswerIsFirstNearest(c: Capability, value: i32, df: DiscreteFeature) returns (i: nat)
    requires c.step == 0 && df.values != [] && DifferencesFit(value, df.values)
    ensures i < |df.values| && ClampedTo(Some(c), value, Some(df)) == df.values[i]
    ensures forall j | 0 <= j < |df.values| :: Abs(value - df.values[i]) <= Abs(value - df.values[j])
    ensures forall j | 0 <= j < i :: Abs(value - df.values[i]) < Abs(value - df.values[j])
  {
    i := BestIsFirstNearest(value, df.values, |df.values|);
    forall j | 0 <= j < |df.values|
      ensures Abs(value - df.values[i]) <= Abs(value - df.values[j])
    {
    }
  }

  /** Without that condition it is so exactly when no other value overtakes the first of
      the nearest by overflow. */
  lemma DiscreteAnswerIff(c: Capability, value: i32, df: DiscreteFeature)
    requires c.step == 0 && df.values != []
    ensures var ds := Distances(value, df.values);
            var i := FirstLeast(ds);
            ClampedTo(Some(c), value, Some(df)) == df.values[i]
            <==> forall j | 0 <= j < |df.values| :: !Overtakes(ds[i], ds[j], j < i)
  {
    BestIsFirstNearestIff(value, df.values);
  }

  /** A request in the middle of an advertised list. */
  lemma MiddleOfListIsKept()
    ensures ClampedTo(Some(Capability(0, 1, 0, 8, 56)), 28, Some(DiscreteFeature(0, [8, 28, 56]))) == 28
  {
    var i := DiscreteAnswerIsFirstNearest(Capability(0, 1, 0, 8, 56), 28, DiscreteFeature(0, [8, 28, 56]));
    assert [8, 28, 56][1] == 28;
  }

  // ---- choosing the capability of a feature ----

  const CPU_SHORT_TERM: u32 := 0x01010000
  const CPU_LONG_TERM: u32 := 0x01020000
  const CPU_CROSS_LOAD: u32 := 0x01060000

  predicate SkipsCapdata(feature: u32)
  {
    feature == CPU_SHORT_TERM || feature == CPU_LONG_TERM || feature == CPU_CROSS_LOAD
  }

  /** What `clamped_value` consults; ignore_capdata is the module parameter the patch adds. */
  datatype Tables = Tables(capdata: seq<Capability>, features: seq<DiscreteFeature>,
                           powermode: int, ignoreCapdata: bool)

  predicate Describes(c: Capability, feature: u32, powermode: int)
  {
    && c.id / 0x10000 == feature / 0x10000
    && c.id / 0x100 % 0x100 == ToU32(powermode)
    && c.id % 0x100 == 0
    && c.supported % 2 == 1
  }

  function FirstCapability(cs: seq<Capability>, feature: u32, powermode: int): Option<Capability>
  {
    if cs == [] then None
    else if Describes(cs[0], feature, powermode) then Some(cs[0])
    else FirstCapability(cs[1..], feature, powermode)
  }

  function FirstFeature(fs: seq<DiscreteFeature>, feature: u32): Option<DiscreteFeature>
  {
    if fs == [] then None
    else if fs[0].featureId / 0x10000 == feature / 0x10000 then Some(fs[0])
    else FirstFeature(fs[1..], feature)
  }

  /** The value written to the firmware, or None for -EINVAL. */
  function Limit(t: Tables, feature: u32, request: i32): Option<i32>
  {
    if t.ignoreCapdata && SkipsCapdata(feature) then
      if request < 1 || request > 255 then None else Some(request)
    else
      Some(ClampedTo(FirstCapability(t.capdata, feature, t.powermode), request,
                     FirstFeature(t.features, feature)))
  }

  /** `clamped_value` with the patch applied; `parsed` is the outcome of kstrtoint. */
  method ClampedValue(t: Tables, feature: u32, parsed: Option<i32>) returns (r: Option<i32>)
    ensures r == if parsed.None? then None else Limit(t, feature, parsed.value)
  {
    if parsed.None? {
      return None;
    }
    var value := parsed.value;
    if t.ignoreCapdata && SkipsCapdata(feature) {
      return if value < 1 || value > 255 then None else Some(value);
    }
    var cd := None;
    var i := 0;
    while i < |t.capdata|
      invariant 0 <= i <= |t.capdata|
      invariant FirstCapability(t.capdata, feature, t.powermode)
             == FirstCapability(t.capdata[i..], feature, t.powermode)
      invariant cd.None?
    {
      if Describes(t.capdata[i], feature, t.powermode) {
        cd := Some(t.capdata[i]);
        break;
      }
      i := i + 1;
    }
    var df := None;
    var j := 0;
    while j < |t.features|
      invariant 0 <= j <= |t.features|
      invariant FirstFeature(t.features, feature) == FirstFeature(t.features[j..], feature)
      invariant df.None?
    {
      if t.features[j].featureId / 0x10000 == feature / 0x10000 {
        df := Some(t.features[j]);
        break;
      }
      j := j + 1;
    }
    var clamped := CapdataClamp(cd, value, df);
    r := Some(clamped);
  }

  /** An entry describes a feature in a mode exactly when its id is the feature's upper half,
      the mode as a byte and a zero byte, and its lowest support bit is set. No mode that
      is not a byte is described. */
  lemma DescribesIff(c: Capability, feature: u32, powermode: int)
    requires -TWO_31 <= powermode < TWO_31
    ensures Describes(c, feature, powermode) <==>
              && 0 <= powermode <= 255 && c.supported % 2 == 1
              && c.id == feature / 0x10000 * 0x10000 + powermode * 0x100
  {
    if 0 <= powermode <= 255 {
      IdIs(c.id, feature / 0x10000, powermode);
    } else {
      BytesOnly(powermode);
    }
  }

  lemma IdIs(id: nat, upper: nat, mode: nat)
    requires mode <= 255
    ensures id == upper * 0x10000 + mode * 0x100
            <==> id / 0x10000 == upper && id / 0x100 % 0x100 == mode && id % 0x100 == 0
  {
    var q := id / 0x100;
    assert id == 0x100 * q + id % 0x100 && q == 0x100 * (q / 0x100) + q % 0x100;
    assert id / 0x10000 == q / 0x100;
  }

  lemma BytesOnly(powermode: int)
    requires -TWO_31 <= powermode < TWO_31 && !(0 <= powermode <= 255)
    ensures ToU32(powermode) > 255
  {
  }

  /** The first list whose id has the feature's upper half is the one consulted. */
  lemma {:induction false} FirstFeatureDecides(fs: seq<DiscreteFeature>, feature: u32)
    ensures match FirstFeature(fs, feature)
            case None => forall f | f in fs :: f.featureId / 0x10000 != feature / 0x10000
            case Some(f) => exists i | 0 <= i < |fs| ::
              && fs[i] == f && f.featureId / 0x10000 == feature / 0x10000
              && forall j | 0 <= j < i :: fs[j].featureId / 0x10000 != feature / 0x10000
    decreases |fs|
  {
    if fs != [] && fs[0].featureId / 0x10000 != feature / 0x10000 {
      FirstFeatureDecides(fs[1..], feature);
      match FirstFeature(fs[1..], feature)
      case None =>
        assert forall f | f in fs :: f == fs[0] || f in fs[1..];
      case Some(f) =>
        var i :| 0 <= i < |fs[1..]| && fs[1..][i] == f
                 && forall j | 0 <= j < i :: fs[1..][j].featureId / 0x10000 != feature / 0x10000;
        assert fs[i + 1] == f;
        forall j | 0 <= j < i + 1
          ensures fs[j].featureId / 0x10000 != feature / 0x10000
        {
          if j > 0 { assert fs[j] == fs[1..][j - 1]; }
        }
    }
  }

  /** With ignore_capdata the three CPU limits are passed as asked within 1..255 and refused
      outside; every other request is answered, by the clamp of the entries found. */
  lemma LimitMeans(t: Tables, feature: u32, request: i32)
    ensures var free := t.ignoreCapdata && (feature == 0x01010000 || feature == 0x01020000 || feature == 0x01060000);
            if free then Limit(t, feature, request) == if 1 <= request <= 255 then Some(request) else None
            else
              Limit(t, feature, request)
              == Some(ClampedTo(FirstCapability(t.capdata, feature, t.powermode), request,
                                FirstFeature(t.features, feature)))
  {
  }

  /** The first capability that describes the feature in the current mode decides;
      the order of the others is immaterial. */
  lemma {:induction false} FirstCapabilityDecides(cs: seq<Capability>, feature: u32, powermode: int)
    ensures match FirstCapability(cs, feature, powermode)
            case None => forall c | c in cs :: !Describes(c, feature, powermode)
            case Some(c) => exists i | 0 <= i < |cs| ::
              && cs[i] == c && Describes(c, feature, powermode)
              && forall j | 0 <= j < i :: !Describes(cs[j], feature, powermode)
    decreases |cs|
  {
    if cs != [] && !Describes(cs[0], feature, powermode) {
      FirstCapabilityDecides(cs[1..], feature, powermode);
      match FirstCapability(cs[1..], feature, powermode)
      case None =>
        assert forall c | c in cs :: c == cs[0] || c in cs[1..];
      case Some(c) =>
        var i :| 0 <= i < |cs[1..]| && cs[1..][i] == c && Describes(c, feature, powermode)
                 && forall j | 0 <= j < i :: !Describes(cs[1..][j], feature, powermode);
        assert cs[i + 1] == c;
        forall j | 0 <= j < i + 1
          ensures !Describes(cs[j], feature, powermode)
        {
          if j > 0 { assert cs[j] == cs[1..][j - 1]; }
        }
    }
  }
}
