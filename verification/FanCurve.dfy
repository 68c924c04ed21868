/** The driver's in-memory fan curve: `struct fancurve` and its validating setters. */
module FanCurve {
  import opened MachineInts
  import opened SpeedCodec

  const MAX_POINTS: nat := 10

  datatype Point = Point(speed1: u8, speed2: u8, accel: u8, decel: u8,
                         cpuMax: u8, cpuMin: u8, gpuMax: u8, gpuMin: u8, icMax: u8, icMin: u8)

  const ZERO_POINT := Point(0, 0, 0, 0, 0, 0, 0, 0, 0, 0)

  /** The hwmon attributes of one point, and the size of the curve. */
  datatype Attr =
    | Pwm1 | Pwm2 | CpuTemp | CpuHyst | GpuTemp | GpuHyst | IcTemp | IcHyst | Accel | Decel | Size

  function Field(p: Point, attr: Attr): u8
    requires !attr.Size?
  {
    match attr
    case Pwm1 => p.speed1 case Pwm2 => p.speed2
    case Accel => p.accel case Decel => p.decel
    case CpuTemp => p.cpuMax case CpuHyst => p.cpuMin
    case GpuTemp => p.gpuMax case GpuHyst => p.gpuMin
    case IcTemp => p.icMax case IcHyst => p.icMin
  }

  function WithField(p: Point, attr: Attr, v: u8): Point
    requires !attr.Size?
  {
    match attr
    case Pwm1 => p.(speed1 := v) case Pwm2 => p.(speed2 := v)
    case Accel => p.(accel := v) case Decel => p.(decel := v)
    case CpuTemp => p.(cpuMax := v) case CpuHyst => p.(cpuMin := v)
    case GpuTemp => p.(gpuMax := v) case GpuHyst => p.(gpuMin := v)
    case IcTemp => p.(icMax := v) case IcHyst => p.(icMin := v)
  }

  /** The value of a `struct fancurve`. */
  datatype Curve = Curve(points: seq<Point>, speedUnit: SpeedUnit, maxRpm: u16, size: nat, current: nat)
  {
    ghost predicate Valid() { |points| == MAX_POINTS && size <= MAX_POINTS }
  }

  /** Range checks of the byte setters other than the two speeds. */
  predicate LevelAllowed(attr: Attr, value: int)
  {
    if attr.Accel? || attr.Decel? then 2 <= value <= 5 else 0 <= value <= 127
  }

  /** The byte a store of value to one field puts there, or None if it is refused. */
  function Encoded(c: Curve, attr: Attr, id: nat, value: int): Option<u8>
    requires !attr.Size?
  {
    if attr.Pwm1? || attr.Pwm2? then
      if id < c.size then SetSpeed(c.speedUnit, c.maxRpm, value) else None
    else if LevelAllowed(attr, value) then Some(value) else None
  }

  const HOTTEST: u8 := 127

  function Topped(p: Point): Point { p.(cpuMax := HOTTEST, icMax := HOTTEST, gpuMax := HOTTEST) }

  /** `fancurve_set_size`: initialises points for the new size but leaves the size as it is. */
  function Resized(c: Curve, n: int): Option<Curve>
    requires c.Valid()
  {
    if !(1 <= n <= MAX_POINTS) then None
    else if n < c.size then Some(c.(points := c.points[n - 1 := Topped(c.points[n - 1])]))
    else
      var last := if c.size > 0 then c.size - 1 else 0;
      Some(c.(points := seq(MAX_POINTS, i requires 0 <= i < MAX_POINTS =>
                              if c.size <= i < n then c.points[last] else c.points[i])))
  }

  function Stored(c: Curve, attr: Attr, id: nat, value: int): Option<Curve>
    requires c.Valid() && id < MAX_POINTS
  {
    if attr.Size? then Resized(c, value)
    else
      match Encoded(c, attr, id, value)
      case None => None
      case Some(b) => Some(c.(points := c.points[id := WithField(c.points[id], attr, b)]))
  }

  function Shown(c: Curve, attr: Attr, id: nat): int
    requires c.Valid() && id < MAX_POINTS
  {
    if attr.Size? then c.size
    else if attr.Pwm1? || attr.Pwm2? then
      if id < c.size then GetSpeed(c.speedUnit, c.maxRpm, Field(c.points[id], attr)) else 0
    else Field(c.points[id], attr)
  }

  class Fancurve {
    const points: array<Point>
    var speedUnit: SpeedUnit
    var maxRpm: u16
    var size: nat
    var current: nat

    ghost predicate Valid()
      reads this
    {
      points.Length == MAX_POINTS && size <= MAX_POINTS
    }

    function Value(): (c: Curve)
      reads this, points
    {
      Curve(points[..], speedUnit, maxRpm, size, current)
    }

    /** A curve on the stack starts out with whatever is there. */
    constructor (stack: Curve)
      requires stack.Valid()
      ensures Valid() && Value() == stack && fresh(points)
    {
      points := new Point[MAX_POINTS](i requires 0 <= i < MAX_POINTS => stack.points[i]);
      speedUnit, maxRpm, size, current := stack.speedUnit, stack.maxRpm, stack.size, stack.current;
      new;
      assert points[..] == stack.points;
    }

    /** `fancurve_set_speed_pwm` */
    method SetSpeedPwm(id: nat, fan: int, value: int) returns (ok: bool)
      requires Valid() && id < MAX_POINTS && 0 <= fan < 2
      modifies points
      ensures var r := Stored(old(Value()), if fan == 0 then Pwm1 else Pwm2, id, value);
              ok == r.Some? && Value() == (if ok then r.value else old(Value()))
    {
      if !(0 <= value <= 255) {
        return false;
      }
      if !(id < size && 0 <= fan < 2) {
        return false;
      }
      var r := SetSpeed(speedUnit, maxRpm, value);
      if fan == 0 {
        points[id] := points[id].(speed1 := r.value);
      } else {
        points[id] := points[id].(speed2 := r.value);
      }
      ok := true;
    }

    /** The eight setters that range-check and store a byte. */
    method SetLevel(attr: Attr, id: nat, value: int) returns (ok: bool)
      requires Valid() && id < MAX_POINTS && !attr.Size? && !attr.Pwm1? && !attr.Pwm2?
      modifies points
      ensures var r := Stored(old(Value()), attr, id, value);
              ok == r.Some? && Value() == (if ok then r.value else old(Value()))
    {
      ok := LevelAllowed(attr, value);
      if ok {
        points[id] := WithField(points[id], attr, value);
      }
    }

    /** `fancurve_set_size` with init_values set, its only use. */
    method SetSize(n: int) returns (ok: bool)
      requires Valid()
      modifies points
      ensures var r := Resized(old(Value()), n);
              ok == r.Some? && Value() == (if ok then r.value else old(Value()))
    {
      ok := 1 <= n <= MAX_POINTS;
      if !ok {
        return;
      }
      if n < size {
        points[n - 1] := points[n - 1].(cpuMax := 127);
        points[n - 1] := points[n - 1].(icMax := 127);
        points[n - 1] := points[n - 1].(gpuMax := 127);
      }
      if n > size {
        var last := if size > 0 then size - 1 else 0;
        ghost var was := points[..];
        for i := size to n
          invariant forall j | 0 <= j < MAX_POINTS ::
              points[j] == if size <= j < i then was[last] else was[j]
        {
          points[i] := points[last];
        }
        assert points[..] == Resized(old(Value()), n).value.points;
      } else if n == size {
        assert points[..] == Resized(old(Value()), n).value.points;
      }
    }
  }
}
