/** From a requested fan speed in rpm, through the PWM value userland computes, to the
    speed byte the driver stores and the rpm userland shows for it. */
module FanRequest {
  import opened MachineInts
  import opened SpeedCodec

  /** Shell and C division truncate toward zero. */
  function TruncDiv(x: int, d: int): int
    requires d > 0
  {
    if x >= 0 then x / d else -((-x) / d)
  }

  /** `apply_curve`'s integer form; the GUI and the CLI round the same quotient. */
  function RpmToPwm(rpm: int, max: int): (pwm: int)
    requires max > 0
    ensures 0 <= pwm <= 255
  {
    var pwm := TruncDiv(rpm * 255 + max / 2, max);
    if pwm > 255 then 255 else if pwm < 0 then 0 else pwm
  }

  /** Rounded to whole hundreds. */
  function PwmToRpm(pwm: int, max: int): int
  {
    (pwm * max + 12750) / 25500 * 100
  }

  /** The speed byte, before the driver's cast, after a request of 100 * k rpm. */
  function Granted(k: nat, max: int): int
    requires max > 0
  {
    Ceil(RpmToPwm(100 * k, max), max)
  }

  lemma PwmOfRequest(k: nat, max: int)
    requires 0 < max && 100 * k <= max
    ensures var p := RpmToPwm(100 * k, max);
            && p == (25500 * k + max / 2) / max
            && 25500 * k - (max - max / 2) < p * max <= 25500 * k + max / 2
  {
    var x := 25500 * k + max / 2;
    assert 100 * k * 255 + max / 2 == x;
    var q := x / max;
    assert x == q * max + x % max;
    DivAdjoint(x, max, 256);
    assert q <= 255;
  }

  /** Userland's rounding and the driver's ceiling together grant the speed asked for
      or the next hundred, never less, up to 51000 rpm; and exactly the speed asked for
      unless the quotient was rounded up. */
  lemma RequestIsHonoured(k: nat, max: int)
    requires 0 < max <= 51000 && 100 * k <= max
    ensures k <= Granted(k, max) <= k + 1
    ensures Granted(k, max) == k <==> 25500 * k % max < max - max / 2
  {
    PwmOfRequest(k, max);
    RoundsDownIff(25500 * k, max);
    HundredsOf(RpmToPwm(100 * k, max) * max, k, max);
  }

  lemma HundredsOf(x: int, k: nat, max: int)
    requires 0 < max <= 51000 && 25500 * k - (max - max / 2) < x <= 25500 * k + max / 2
    ensures k <= (x + 25499) / 25500 <= k + 1
    ensures (x + 25499) / 25500 == k <==> x <= 25500 * k
  {
  }

  lemma RoundsDownIff(x: nat, max: int)
    requires 0 < max
    ensures (x + max / 2) / max * max <= x <==> x % max < max - max / 2
  {
    var q, r := x / max, x % max;
    assert x == q * max + r;
    MulSuccessor(q, max);
    DivUnique(x + max / 2, max, if r + max / 2 < max then q else q + 1);
  }

  /** The byte the driver stores, cast included, as long as the maximum is one the cast
      can carry. */
  lemma DriverStoresGranted(k: nat, maxRpm: u16)
    requires 0 < maxRpm <= 25500 && 100 * k <= maxRpm
    ensures 0 <= Granted(k, maxRpm) <= 255
    ensures SetSpeed(RpmHundred, maxRpm, RpmToPwm(100 * k, maxRpm)) == Some(Granted(k, maxRpm))
  {
    StoredIsCeil(maxRpm, RpmToPwm(100 * k, maxRpm));
  }

  /** What userland shows for a stored speed is that speed exactly when the PWM value
      the driver reports has lost at most half a hundred. */
  lemma ReadbackIsStoredIff(s: nat, max: int)
    requires max > 0
    ensures PwmToRpm(Floor(s, max), max) == 100 * s <==> s * 25500 % max <= 12750
  {
    var p := Floor(s, max);
    assert s * 25500 == p * max + s * 25500 % max;
  }

  /** One apply and readback in the GUI: the hundreds of rpm shown afterwards. */
  function Reapplied(k: nat, max: int): int
    requires max > 0
  {
    PwmToRpm(Floor(Granted(k, max), max), max) / 100
  }

  /** Up to 12750 rpm the readback is what is stored; and if the maximum is a whole
      number of hundreds it never leaves the range. */
  lemma ReappliedIsGranted(k: nat, max: int)
    requires 0 < max <= 12750 && 100 * k <= max
    ensures Reapplied(k, max) == Granted(k, max)
    ensures k <= Reapplied(k, max) <= k + 1
    ensures max % 100 == 0 ==> 100 * Reapplied(k, max) <= max
  {
    var s := Granted(k, max);
    RequestIsHonoured(k, max);
    ReadbackIsStoredIff(s, max);
    RemainderIsSmall(s * 25500, max);
    if max % 100 == 0 { GrantedIsInRange(k, max); }
  }

  lemma RemainderIsSmall(x: int, max: int)
    requires 0 < max <= 12750
    ensures x % max <= 12750
  {
  }

  lemma GrantedIsInRange(k: nat, max: int)
    requires 0 < max && max % 100 == 0
    ensures 100 * Granted(k, max) <= max
  {
    var p := RpmToPwm(100 * k, max);
    var product := p * max;
    MulMonotone(p, 255, max);
    assert max == 100 * (max / 100);
    WholeHundreds(product, max / 100);
  }

  lemma WholeHundreds(x: int, h: int)
    requires x <= 25500 * h
    ensures (x + 25499) / 25500 <= h
  {
  }

  /** n applies in a row, each of what the previous one showed. */
  function Cycles(k: nat, max: int, n: nat): nat
    requires 0 < max <= 12750 && 100 * k <= max && max % 100 == 0
    decreases n
  {
    if n == 0 then k
    else
      ReappliedIsGranted(k, max);
      Cycles(Reapplied(k, max), max, n - 1)
  }

  /** Reapplying what is shown only ever raises it, stays within the maximum, and after
      at most as many cycles as there are hundreds above it, changes nothing more. */
  lemma {:induction false} ReapplyingSettles(k: nat, max: int, n: nat)
    requires 0 < max <= 12750 && 100 * k <= max && max % 100 == 0
    ensures k <= Cycles(k, max, n) && 100 * Cycles(k, max, n) <= max
    ensures n >= max / 100 - k ==> Reapplied(Cycles(k, max, n), max) == Cycles(k, max, n)
    decreases n
  {
    ReappliedIsGranted(k, max);
    var next := Reapplied(k, max);
    if n > 0 {
      if next == k {
        StaysSettled(k, max, n - 1);
      } else {
        ReapplyingSettles(next, max, n - 1);
      }
    }
  }

  lemma {:induction false} StaysSettled(k: nat, max: int, n: nat)
    requires 0 < max <= 12750 && 100 * k <= max && max % 100 == 0
    requires Reapplied(k, max) == k
    ensures Cycles(k, max, n) == k
    decreases n
  {
    if n > 0 {
      StaysSettled(k, max, n - 1);
    }
  }

  /** It does happen on this machine: with a maximum of 5400 rpm the lowest point of
      the gradual preset, 1200 rpm, is stored and shown as 1300. */
  lemma PresetSpeedIsRaised()
    ensures Granted(12, 5400) == 13 && Reapplied(12, 5400) == 13 && Reapplied(13, 5400) == 13
  {
  }

  // ---- the request as a whole ----

  /** A request at or above the maximum asks for everything, one at or below zero for
      nothing. */
  lemma RequestSaturates(rpm: int, max: int)
    requires max > 0
    ensures rpm >= max ==> RpmToPwm(rpm, max) == 255
    ensures rpm <= 0 ==> RpmToPwm(rpm, max) == 0
  {
    if rpm >= max {
      DivAdjoint(rpm * 255 + max / 2, max, 255);
    } else if rpm <= 0 {
      SmallQuotient(rpm * 255 + max / 2, max);
    }
  }

  lemma SmallQuotient(x: int, max: int)
    requires max > 0 && x < max
    ensures TruncDiv(x, max) <= 0
  {
    if x >= 0 {
      DivUnique(x, max, 0);
    } else {
      DivAdjoint(-x, max, 0);
    }
  }

  /** Asking for more never gives less. */
  lemma RequestIsMonotone(rpm1: int, rpm2: int, max: int)
    requires max > 0 && rpm1 <= rpm2
    ensures RpmToPwm(rpm1, max) <= RpmToPwm(rpm2, max)
  {
    QuotientMonotone(rpm1 * 255 + max / 2, rpm2 * 255 + max / 2, max);
  }

  lemma QuotientMonotone(x: int, y: int, max: int)
    requires max > 0 && x <= y
    ensures TruncDiv(x, max) <= TruncDiv(y, max)
  {
    if x >= 0 {
      DivAdjoint(x, max, x / max);
      DivAdjoint(y, max, x / max);
    } else if y >= 0 {
      SmallQuotient(x, max);
      DivAdjoint(y, max, 0);
    } else {
      DivAdjoint(-y, max, -y / max);
      DivAdjoint(-x, max, -y / max);
    }
  }

  /** In between it is the PWM value nearest to the request. */
  lemma RequestIsNearest(rpm: int, max: int)
    requires 0 <= rpm <= max && max > 0
    ensures 2 * Abs(RpmToPwm(rpm, max) * max - 255 * rpm) <= max
  {
    var x := rpm * 255 + max / 2;
    var q := x / max;
    assert x == q * max + x % max;
    DivAdjoint(x, max, 256);
    DivAdjoint(x, max, 0);
  }
}
