/** The codec between a sysfs PWM value and the fan speed byte kept in the EC table
    (`fancurve_set_speed_pwm`, `fancurve_get_speed_pwm`). */
module SpeedCodec {
  import opened MachineInts

  datatype SpeedUnit = Percent | Pwm | RpmHundred | PercentNearest

  const MAX_RPM: int := 10000

  /** `fancurve->max_rpm ? fancurve->max_rpm : MAX_RPM` */
  function EffectiveMaxRpm(maxRpm: u16): (m: int)
    ensures 0 < m < TWO_16
  {
    if maxRpm != 0 then maxRpm else MAX_RPM
  }

  /** The value each unit computes before `clamp_t(u8, ...)` casts it. */
  function SetRaw(unit: SpeedUnit, maxRpm: u16, value: int): (raw: int)
    requires 0 <= value <= 255
    ensures 0 <= raw
  {
    match unit
    case Percent => value * 100 / 255
    case PercentNearest => (value * 100 + 255 / 2) / 255
    case Pwm => value
    case RpmHundred =>
      var product := value * EffectiveMaxRpm(maxRpm);
      ToU32(ToU32(product + 100 * 255) - 1) / (100 * 255)
  }

  /** What the setter stores, or None when it refuses the value. The cast comes
      before the clamp, so an oversized speed wraps instead of saturating. */
  function SetSpeed(unit: SpeedUnit, maxRpm: u16, value: int): (r: Option<u8>)
  {
    if !(0 <= value <= 255) then None
    else
      var cast := ToU8(SetRaw(unit, maxRpm, value));
      Some(if unit == PercentNearest then Clamp(cast, 0, 100) else cast)
  }

  function GetSpeed(unit: SpeedUnit, maxRpm: u16, speed: u8): (value: int)
    ensures 0 <= value
  {
    match unit
    case Percent | PercentNearest => speed * 255 / 100
    case Pwm => speed
    case RpmHundred => ToU32(speed * 255 * 100) / EffectiveMaxRpm(maxRpm)
  }

  // ---- the hundreds-of-rpm unit, over an arbitrary positive maximum ----

  /** ceil(p * m / 25500) */
  function Ceil(p: int, m: int): int { (p * m + 25499) / 25500 }

  /** floor(25500 * s / m) */
  function Floor(s: int, m: int): int
    requires m > 0
  {
    s * 25500 / m
  }

  /** None of the 32-bit intermediate results of this unit wraps. */
  lemma RpmHundredIsExact(maxRpm: u16, value: int, speed: u8)
    requires 0 <= value <= 255
    ensures SetRaw(RpmHundred, maxRpm, value) == Ceil(value, EffectiveMaxRpm(maxRpm))
    ensures GetSpeed(RpmHundred, maxRpm, speed) == Floor(speed, EffectiveMaxRpm(maxRpm))
  {
    var product := value * EffectiveMaxRpm(maxRpm);
    ProductFits(value, EffectiveMaxRpm(maxRpm));
    FitsU32(product + 25500);
    FitsU32(product + 25499);
    FitsU32(speed * 25500);
  }

  lemma ProductFits(v: int, m: int)
    requires 0 <= v <= 255 && 0 <= m < TWO_16
    ensures 0 <= v * m <= 255 * TWO_16
  {
    assert v * m >= 0 && (255 - v) * m >= 0;
  }

  lemma FitsU32(x: int)
    requires 0 <= x < TWO_32
    ensures ToU32(x) == x
  {
  }

  lemma FitsU8(x: int)
    requires 0 <= x < TWO_8
    ensures ToU8(x) == x
  {
  }

  /** Storing and showing are adjoint: a request fits in speed s exactly when it
      does not exceed what s shows. */
  lemma RpmAdjunction(p: int, s: int, m: int)
    requires m > 0
    ensures Ceil(p, m) <= s <==> p <= Floor(s, m)
  {
    DivAdjoint(s * 25500, m, p);
  }

  /** Show, store, show and store, show, store collapse. */
  lemma RpmCodecCollapses(p: int, s: int, m: int)
    requires m > 0
    ensures Ceil(Floor(Ceil(p, m), m), m) == Ceil(p, m)
    ensures Floor(Ceil(Floor(s, m), m), m) == Floor(s, m)
    ensures p <= Floor(Ceil(p, m), m) && Ceil(Floor(s, m), m) <= s
  {
    var c, f := Ceil(p, m), Floor(s, m);
    var up, down := Floor(c, m), Ceil(f, m);
    RpmAdjunction(p, c, m);
    RpmAdjunction(up, c, m);
    RpmAdjunction(p, Ceil(up, m), m);
    RpmAdjunction(up, Ceil(up, m), m);
    RpmAdjunction(f, s, m);
    RpmAdjunction(f, down, m);
    RpmAdjunction(Floor(down, m), s, m);
    RpmAdjunction(Floor(down, m), down, m);
  }

  /** Storing what a stored speed shows gives that speed back for every speed up to
      the maximum, exactly when the maximum is at most 25500 rpm. */
  lemma RpmRoundTripIffSmallMax(m: int)
    requires m > 0
    ensures (forall s: int | 0 <= s && 100 * s <= m :: Ceil(Floor(s, m), m) == s) <==> m <= 25500
  {
    if m <= 25500 {
      forall s: int | 0 <= s && 100 * s <= m
        ensures Ceil(Floor(s, m), m) == s
      {
        RpmSurjective(s, m);
      }
    } else {
      assert Floor(1, m) == 0;
      assert Ceil(Floor(1, m), m) != 1;
    }
  }

  /** Below 25500 rpm no stored speed is skipped. */
  lemma RpmSurjective(s: int, m: int)
    requires 0 < m <= 25500
    ensures Ceil(Floor(s, m), m) == s
  {
    var f := Floor(s, m);
    assert s * 25500 == f * m + (s * 25500) % m;
    assert s * 25500 - m < f * m <= s * 25500;
    DivUnique(f * m + 25499, 25500, s);
  }

  /** The ceiling of every request fits in a byte exactly up to 25500 rpm. */
  lemma CeilFitsIff(m: int)
    requires m > 0
    ensures (forall p: int | 0 <= p <= 255 :: Ceil(p, m) <= 255) <==> m <= 25500
  {
    if m <= 25500 {
      forall p: int | 0 <= p <= 255
        ensures Ceil(p, m) <= 255
      {
        assert p * m <= 255 * 25500 by {
          assert (255 - p) * m >= 0 && 255 * (25500 - m) >= 0;
        }
      }
    } else {
      assert Ceil(255, m) > 255;
    }
  }

  /** Below that bound the driver stores the ceiling itself. */
  lemma StoredIsCeil(maxRpm: u16, p: int)
    requires EffectiveMaxRpm(maxRpm) <= 25500 && 0 <= p <= 255
    ensures 0 <= Ceil(p, EffectiveMaxRpm(maxRpm)) <= 255
    ensures SetSpeed(RpmHundred, maxRpm, p) == Some(Ceil(p, EffectiveMaxRpm(maxRpm)))
  {
    var c := Ceil(p, EffectiveMaxRpm(maxRpm));
    RpmHundredIsExact(maxRpm, p, 0);
    CeilFitsIff(EffectiveMaxRpm(maxRpm));
    ProductFits(p, EffectiveMaxRpm(maxRpm));
    FitsU8(c);
  }

  /** The u8 cast of the setter loses nothing for any legal value exactly up to 25500 rpm. */
  lemma CastLosesNothingIff(maxRpm: u16)
    ensures (forall p: int | 0 <= p <= 255 :: SetSpeed(RpmHundred, maxRpm, p) == Some(Ceil(p, EffectiveMaxRpm(maxRpm))))
            <==> EffectiveMaxRpm(maxRpm) <= 25500
  {
    var m := EffectiveMaxRpm(maxRpm);
    if m <= 25500 {
      forall p: int | 0 <= p <= 255
        ensures SetSpeed(RpmHundred, maxRpm, p) == Some(Ceil(p, m))
      {
        StoredIsCeil(maxRpm, p);
      }
    } else {
      assert Ceil(255, m) > 255;
      assert SetSpeed(RpmHundred, maxRpm, 255) != Some(Ceil(255, m));
    }
  }

  /** Above it the setter wraps: full speed on the fastest fan is stored as 144, not 656
      and not 255. */
  lemma CastWraps()
    ensures SetSpeed(RpmHundred, 65535, 255) == Some(144) && Ceil(255, 65535) == 656
  {
  }

  /** What a stored speed shows is a legal value, and the codec does not skip the speed. */
  predicate SpeedReturns(maxRpm: u16, speed: u8)
  {
    var m := EffectiveMaxRpm(maxRpm);
    speed * 25500 < 256 * m && speed * 25500 % m < 25500
  }

  /** Exactly then show and store give the speed back, for every configured maximum. */
  lemma SpeedReturnsIff(maxRpm: u16, speed: u8)
    ensures var shown := GetSpeed(RpmHundred, maxRpm, speed);
            && (shown <= 255 <==> speed * 25500 < 256 * EffectiveMaxRpm(maxRpm))
            && (SetSpeed(RpmHundred, maxRpm, shown) == Some(speed) <==> SpeedReturns(maxRpm, speed))
  {
    var m := EffectiveMaxRpm(maxRpm);
    var shown := Floor(speed, m);
    RpmHundredIsExact(maxRpm, 0, speed);
    DivAdjoint(speed * 25500, m, 256);
    DivAdjoint(speed * 25500, m, 0);
    if shown <= 255 {
      RpmHundredIsExact(maxRpm, shown, speed);
      RpmAdjunction(shown, speed, m);
      var c := Ceil(shown, m);
      CeilIsPositive(shown, m);
      FitsU8(c);
      CeilOfFloorIff(speed, m);
    }
  }

  lemma CeilIsPositive(p: int, m: int)
    requires p >= 0 && m > 0
    ensures Ceil(p, m) >= 0
  {
    MulMonotone(0, p, m);
  }

  lemma CeilOfFloorIff(s: int, m: int)
    requires m > 0
    ensures Ceil(Floor(s, m), m) == s <==> s * 25500 % m < 25500
  {
    var product := Floor(s, m) * m;
    assert s * 25500 == product + s * 25500 % m;
    assert Ceil(Floor(s, m), m) == (product + 25499) / 25500;
  }

  /** The driver's own functions, cast and 32-bit arithmetic included: for every
      configured maximum up to 25500, every in-range speed survives show then store. */
  lemma StoredSpeedSurvives(maxRpm: u16, speed: u8)
    requires EffectiveMaxRpm(maxRpm) <= 25500
    requires 100 * speed <= EffectiveMaxRpm(maxRpm)
    ensures 0 <= GetSpeed(RpmHundred, maxRpm, speed) <= 255
    ensures SetSpeed(RpmHundred, maxRpm, GetSpeed(RpmHundred, maxRpm, speed)) == Some(speed)
  {
    var m := EffectiveMaxRpm(maxRpm);
    RpmHundredIsExact(maxRpm, 0, speed);
    var shown := Floor(speed, m);
    DivAdjoint(speed * 25500, m, 256);
    assert shown <= 255;
    StoredIsCeil(maxRpm, shown);
    RpmSurjective(speed, m);
  }

  // ---- the percent units ----

  /** One show-then-store cycle of a unit, before its clamp. */
  function Cycle(unit: SpeedUnit, s: nat): nat
    requires unit == Percent || unit == PercentNearest
  {
    var shown := s * 255 / 100;
    if unit == Percent then shown * 100 / 255 else (shown * 100 + 255 / 2) / 255
  }

  /** A cycle is what the driver computes on any speed it can show as a legal PWM value. */
  lemma CycleIsTheDriver(unit: SpeedUnit, maxRpm: u16, s: u8)
    requires unit == Percent || unit == PercentNearest
    ensures s <= 100 <==> GetSpeed(unit, maxRpm, s) <= 255
    ensures s <= 100 ==> SetSpeed(unit, maxRpm, GetSpeed(unit, maxRpm, s)) == Some(Cycle(unit, s))
  {
    if s <= 100 { FitsU8(Cycle(unit, s)); }
  }

  function Cycles(unit: SpeedUnit, s: nat, n: nat): nat
    requires unit == Percent || unit == PercentNearest
    decreases n
  {
    if n == 0 then s else Cycles(unit, Cycle(unit, s), n - 1)
  }

  /** The nearest form never drifts. */
  lemma {:induction false} NearestNeverDrifts(s: nat, n: nat)
    ensures Cycles(PercentNearest, s, n) == s
    decreases n
  {
    if n > 0 {
      var shown := s * 255 / 100;
      assert s * 255 - 99 <= shown * 100 <= s * 255;
      assert Cycle(PercentNearest, s) == s;
      NearestNeverDrifts(s, n - 1);
    }
  }

  /** The truncating form loses one per cycle down to the next multiple of 20. */
  lemma {:induction false} TruncatingDriftsToMultipleOf20(s: nat, n: nat)
    ensures Cycles(Percent, s, n) == Max(s - n, 20 * (s / 20))
    decreases n
  {
    if n > 0 {
      TruncatingCycle(s);
      TruncatingDriftsToMultipleOf20(Cycle(Percent, s), n - 1);
    }
  }

  lemma TruncatingCycle(s: nat)
    ensures Cycle(Percent, s) == if s % 20 == 0 then s else s - 1
  {
    var q, r := s / 20, s % 20;
    assert s * 255 / 100 == 51 * q + r * 255 / 100;
    assert (51 * q + r * 255 / 100) * 100 / 255 == 20 * q + (r * 255 / 100) * 100 / 255;
  }

  // ---- every unit, every value ----

  /** Values outside 0..255 are refused in every unit, and no others. */
  lemma AcceptedIff(unit: SpeedUnit, maxRpm: u16, value: int)
    ensures SetSpeed(unit, maxRpm, value).Some? <==> 0 <= value <= 255
  {
  }

  /** The percent unit stores the percentage rounded down. */
  lemma PercentRoundsDown(maxRpm: u16, value: int)
    requires 0 <= value <= 255
    ensures var s := SetSpeed(Percent, maxRpm, value).value;
            255 * s <= 100 * value < 255 * s + 255
  {
    FitsU8(value * 100 / 255);
  }

  /** The nearest form stores the nearest percentage. */
  lemma NearestIsNearest(maxRpm: u16, value: int)
    requires 0 <= value <= 255
    ensures var s := SetSpeed(PercentNearest, maxRpm, value).value;
            0 <= s <= 100 && 2 * Abs(255 * s - 100 * value) <= 255
  {
    FitsU8((value * 100 + 255 / 2) / 255);
  }

  /** The PWM unit stores and shows the value itself. */
  lemma PwmIsItself(maxRpm: u16, value: u8)
    ensures SetSpeed(Pwm, maxRpm, value) == Some(value) && GetSpeed(Pwm, maxRpm, value) == value
  {
    FitsU8(value);
  }

  /** Both percent units show a percentage as a PWM value rounded down. */
  lemma PercentShows(unit: SpeedUnit, maxRpm: u16, s: u8)
    requires unit == Percent || unit == PercentNearest
    ensures var shown := GetSpeed(unit, maxRpm, s); 100 * shown <= 255 * s < 100 * shown + 100
  {
  }
}
