/** Fan curves in EC RAM: the register layouts, the functions that move whole curves
    between RAM and a `struct fancurve`, and the sysfs store and show built on them. */
module EcCurve {
  import opened MachineInts
  import opened EcPorts
  import opened ByteTable
  import opened SpeedCodec
  import opened FanCurve

  datatype Registers = Registers(
    fan1: u16, fan2: u16, acc: u16, dec: u16, cpuTemp: u16, cpuHyst: u16,
    gpuTemp: u16, gpuHyst: u16, vrmTemp: u16, vrmHyst: u16, pointsSize: u16, curPoint: u16)

  const REGISTERS_V0 := Registers(0xC540, 0xC550, 0xC560, 0xC570, 0xC580, 0xC590,
                                  0xC5A0, 0xC5B0, 0xC5C0, 0xC5D0, 0xC535, 0xC534)

  /** Fan update counters and internal fan levels, cleared by every write of a curve. */
  const UPDATE_COUNTERS: seq<u16> := [0xC5FE, 0xC5FF]
  const FAN_LEVELS: seq<u16> := [0xC634, 0xC635, 0xC636]

  function TableOf(r: Registers): Layout
  {
    Layout([r.fan1, r.fan2, r.acc, r.dec, r.cpuTemp, r.cpuHyst, r.gpuTemp, r.gpuHyst, r.vrmTemp, r.vrmHyst],
           1, MAX_POINTS)
  }

  function RowOf(p: Point): (row: seq<u8>)
    ensures |row| == 10
  {
    [p.speed1, p.speed2, p.accel, p.decel, p.cpuMax, p.cpuMin, p.gpuMax, p.gpuMin, p.icMax, p.icMin]
  }

  /** The registers beside the table: none of them is a cell, and the two single
      registers differ from each other and the size from everything that is cleared. */
  ghost predicate Placed(r: Registers)
  {
    && TableOf(r).Disjoint()
    && !TableOf(r).IsCell(r.pointsSize, MAX_POINTS)
    && (forall a | a in UPDATE_COUNTERS + FAN_LEVELS + [r.curPoint] ::
          a != r.pointsSize && !TableOf(r).IsCell(a, MAX_POINTS))
  }

  /** Points at or above the size are cleared. */
  function Padded(c: Curve, i: nat): Point
    requires c.Valid() && i < MAX_POINTS
  {
    if i < c.size then c.points[i] else ZERO_POINT
  }

  function PaddedRows(c: Curve): (rows: seq<seq<u8>>)
    requires c.Valid()
    ensures |rows| == MAX_POINTS && forall r | r in rows :: |r| == 10
    ensures forall i | 0 <= i < MAX_POINTS :: rows[i] == RowOf(Padded(c, i))
  {
    seq(MAX_POINTS, i requires 0 <= i < MAX_POINTS => RowOf(Padded(c, i)))
  }

  /** EC RAM after `ec_write_fancurve_legion`. */
  ghost function LegionWritten(ram: Ram, r: Registers, c: Curve, writeSize: bool): Ram
    requires c.Valid()
  {
    var r1 := WriteRows(ram[0xC5FE := 0][0xC5FF := 0], TableOf(r), PaddedRows(c), MAX_POINTS);
    var r2 := if writeSize then r1[r.pointsSize := c.size] else r1;
    r2[r.curPoint := 0][0xC634 := 0][0xC635 := 0][0xC636 := 0]
  }

  /** An entry of an array of registers. */
  function At(base: u16, i: nat): u16 { (base + i) % TWO_16 }

  function PointAt(ram: Ram, r: Registers, i: nat): Point
    requires i < MAX_POINTS
  {
    Point(ram[At(r.fan1, i)], ram[At(r.fan2, i)], ram[At(r.acc, i)],
          ram[At(r.dec, i)], ram[At(r.cpuTemp, i)], ram[At(r.cpuHyst, i)],
          ram[At(r.gpuTemp, i)], ram[At(r.gpuHyst, i)], ram[At(r.vrmTemp, i)],
          ram[At(r.vrmHyst, i)])
  }

  /** The curve `ec_read_fancurve_legion` finds; max_rpm keeps whatever the caller's
      variable held. */
  function LegionRead(ram: Ram, r: Registers, maxRpm: u16): (c: Curve)
    ensures c.Valid()
  {
    var size := Min(ram[r.pointsSize], MAX_POINTS);
    Curve(seq(MAX_POINTS, i requires 0 <= i < MAX_POINTS => PointAt(ram, r, i)),
          RpmHundred, maxRpm, size, Min(ram[r.curPoint], size))
  }

  method ReadPoint(ec: EcRam, r: Registers, i: nat) returns (p: Point)
    requires i < MAX_POINTS
    modifies ec
    ensures ec.chip.ram == old(ec.chip.ram) && p == PointAt(old(ec.chip.ram), r, i)
  {
    var speed1 := ec.ReadByte(At(r.fan1, i));
    var speed2 := ec.ReadByte(At(r.fan2, i));
    var accel := ec.ReadByte(At(r.acc, i));
    var decel := ec.ReadByte(At(r.dec, i));
    var cpuMax := ec.ReadByte(At(r.cpuTemp, i));
    var cpuMin := ec.ReadByte(At(r.cpuHyst, i));
    var gpuMax := ec.ReadByte(At(r.gpuTemp, i));
    var gpuMin := ec.ReadByte(At(r.gpuHyst, i));
    var icMax := ec.ReadByte(At(r.vrmTemp, i));
    var icMin := ec.ReadByte(At(r.vrmHyst, i));
    p := Point(speed1, speed2, accel, decel, cpuMax, cpuMin, gpuMax, gpuMin, icMax, icMin);
  }

  method ReadFancurveLegion(ec: EcRam, r: Registers, curve: Fancurve)
    requires curve.Valid()
    modifies ec, curve, curve.points
    ensures ec.chip.ram == old(ec.chip.ram)
    ensures curve.Valid() && curve.Value() == LegionRead(old(ec.chip.ram), r, old(curve.maxRpm))
  {
    curve.speedUnit := RpmHundred;
    ghost var ram := ec.chip.ram;
    for i := 0 to MAX_POINTS
      invariant ec.chip.ram == ram
      invariant curve.Valid() && curve.maxRpm == old(curve.maxRpm) && curve.speedUnit == RpmHundred
      invariant forall j: nat | j < i :: curve.points[j] == PointAt(ram, r, j)
    {
      var p := ReadPoint(ec, r, i);
      curve.points[i] := p;
    }
    var size := ec.ReadByte(r.pointsSize);
    curve.size := Min(size, MAX_POINTS);
    var current := ec.ReadByte(r.curPoint);
    curve.current := Min(current, curve.size);
    assert curve.points[..] == LegionRead(ram, r, curve.maxRpm).points;
  }

  lemma CellsOf(r: Registers, i: nat)
    ensures var t := TableOf(r);
            && |t.bases| == 10
            && t.Cell(0, i) == At(r.fan1, i) && t.Cell(1, i) == At(r.fan2, i)
            && t.Cell(2, i) == At(r.acc, i) && t.Cell(3, i) == At(r.dec, i)
            && t.Cell(4, i) == At(r.cpuTemp, i) && t.Cell(5, i) == At(r.cpuHyst, i)
            && t.Cell(6, i) == At(r.gpuTemp, i) && t.Cell(7, i) == At(r.gpuHyst, i)
            && t.Cell(8, i) == At(r.vrmTemp, i) && t.Cell(9, i) == At(r.vrmHyst, i)
  {
  }

  method WritePoint(ec: EcRam, r: Registers, i: nat, p: Point)
    requires i < MAX_POINTS
    modifies ec
    ensures ec.chip.ram == WriteRow(old(ec.chip.ram), TableOf(r), i, RowOf(p), 10)
  {
    ghost var ram, t, row := ec.chip.ram, TableOf(r), RowOf(p);
    CellsOf(r, i);
    ec.WriteByte(At(r.fan1, i), p.speed1);
    assert ec.chip.ram == WriteRow(ram, t, i, row, 1);
    ec.WriteByte(At(r.fan2, i), p.speed2);
    assert ec.chip.ram == WriteRow(ram, t, i, row, 2);
    ec.WriteByte(At(r.acc, i), p.accel);
    assert ec.chip.ram == WriteRow(ram, t, i, row, 3);
    ec.WriteByte(At(r.dec, i), p.decel);
    assert ec.chip.ram == WriteRow(ram, t, i, row, 4);
    ec.WriteByte(At(r.cpuTemp, i), p.cpuMax);
    assert ec.chip.ram == WriteRow(ram, t, i, row, 5);
    ec.WriteByte(At(r.cpuHyst, i), p.cpuMin);
    assert ec.chip.ram == WriteRow(ram, t, i, row, 6);
    ec.WriteByte(At(r.gpuTemp, i), p.gpuMax);
    assert ec.chip.ram == WriteRow(ram, t, i, row, 7);
    ec.WriteByte(At(r.gpuHyst, i), p.gpuMin);
    assert ec.chip.ram == WriteRow(ram, t, i, row, 8);
    ec.WriteByte(At(r.vrmTemp, i), p.icMax);
    assert ec.chip.ram == WriteRow(ram, t, i, row, 9);
    ec.WriteByte(At(r.vrmHyst, i), p.icMin);
  }

  method WriteFancurveLegion(ec: EcRam, r: Registers, curve: Fancurve, writeSize: bool)
    requires curve.Valid()
    modifies ec
    ensures ec.chip.ram == LegionWritten(old(ec.chip.ram), r, curve.Value(), writeSize)
  {
    ec.WriteByte(0xC5FE, 0);
    ec.WriteByte(0xC5FF, 0);
    ghost var start := ec.chip.ram;
    ghost var table, rows := TableOf(r), PaddedRows(curve.Value());
    for i := 0 to MAX_POINTS
      invariant ec.chip.ram == WriteRows(start, table, rows, i)
    {
      WritePoint(ec, r, i, if i < curve.size then curve.points[i] else ZERO_POINT);
    }
    if writeSize {
      ec.WriteByte(r.pointsSize, curve.size);
    }
    ec.WriteByte(r.curPoint, 0);
    ec.WriteByte(0xC634, 0);
    ec.WriteByte(0xC635, 0);
    ec.WriteByte(0xC636, 0);
  }

  // ---- sysfs ----

  /** RAM after `autopoint_store`, or None when the store is refused. */
  ghost function StoredRam(ram: Ram, r: Registers, stackRpm: u16, attr: Attr, id: nat, value: int): Option<Ram>
    requires id < MAX_POINTS
  {
    match Stored(LegionRead(ram, r, stackRpm), attr, id, value)
    case None => None
    case Some(c) => Some(LegionWritten(ram, r, c, attr.Size?))
  }

  function ShownFrom(ram: Ram, r: Registers, stackRpm: u16, attr: Attr, id: nat): int
    requires id < MAX_POINTS
  {
    Shown(LegionRead(ram, r, stackRpm), attr, id)
  }

  /** The point exists, the text was a number, and storing the number succeeds. */
  ghost predicate Accepts(ram: Ram, r: Registers, stackRpm: u16, attr: Attr, id: int, parsed: Option<i32>)
  {
    0 <= id < MAX_POINTS && parsed.Some? && StoredRam(ram, r, stackRpm, attr, id, parsed.value).Some?
  }

  /** `autopoint_store`: `parsed` is the outcome of kstrtoint, `stack` the contents of
      the uninitialised local curve. */
  method AutopointStore(ec: EcRam, r: Registers, stack: Curve, attr: Attr, id: int, parsed: Option<i32>)
    returns (ok: bool)
    requires stack.Valid()
    modifies ec
    ensures ok == Accepts(old(ec.chip.ram), r, stack.maxRpm, attr, id, parsed)
    ensures ok ==> ec.chip.ram == StoredRam(old(ec.chip.ram), r, stack.maxRpm, attr, id, parsed.value).value
    ensures !ok ==> ec.chip.ram == old(ec.chip.ram)
  {
    if !(0 <= id < MAX_POINTS) || parsed.None? {
      return false;
    }
    var value := parsed.value;
    var curve := new Fancurve(stack);
    ReadFancurveLegion(ec, r, curve);
    match attr {
      case Pwm1 => ok := curve.SetSpeedPwm(id, 0, value);
      case Pwm2 => ok := curve.SetSpeedPwm(id, 1, value);
      case Size => ok := curve.SetSize(value);
      case _ => ok := curve.SetLevel(attr, id, value);
    }
    if ok {
      WriteFancurveLegion(ec, r, curve, attr.Size?);
    }
  }

  /** `autopoint_show` for a point in range. */
  method AutopointShow(ec: EcRam, r: Registers, stack: Curve, attr: Attr, id: nat) returns (value: int)
    requires stack.Valid() && id < MAX_POINTS
    modifies ec
    ensures ec.chip.ram == old(ec.chip.ram)
    ensures value == ShownFrom(old(ec.chip.ram), r, stack.maxRpm, attr, id)
  {
    var curve := new Fancurve(stack);
    ReadFancurveLegion(ec, r, curve);
    value := Shown(curve.Value(), attr, id);
  }

  // ---- what a store changes ----

  lemma ClearedAreNotCells(r: Registers)
    requires Placed(r)
    ensures forall a | a in {r.curPoint, 0xC5FE, 0xC5FF, 0xC634, 0xC635, 0xC636} ::
              a != r.pointsSize && !TableOf(r).IsCell(a, MAX_POINTS)
  {
    var all := UPDATE_COUNTERS + FAN_LEVELS + [r.curPoint];
    assert all == [0xC5FE, 0xC5FF, 0xC634, 0xC635, 0xC636, r.curPoint];
    assert all[0] in all && all[1] in all && all[2] in all && all[3] in all && all[4] in all && all[5] in all;
  }

  lemma WrittenBytes(ram: Ram, r: Registers, c: Curve, writeSize: bool)
    requires c.Valid() && Placed(r)
    ensures var done := LegionWritten(ram, r, c, writeSize);
            && (forall f, i | 0 <= f < 10 && 0 <= i < MAX_POINTS ::
                  done[TableOf(r).Cell(f, i)] == RowOf(Padded(c, i))[f])
            && done[r.pointsSize] == (if writeSize then c.size else ram[r.pointsSize])
            && done[r.curPoint] == 0
            && (forall a: u16 | !TableOf(r).IsCell(a, MAX_POINTS) && a != r.pointsSize
                  && a !in {r.curPoint, 0xC5FE, 0xC5FF, 0xC634, 0xC635, 0xC636} :: done[a] == ram[a])
  {
    var start := ram[0xC5FE := 0][0xC5FF := 0];
    var t, rows := TableOf(r), PaddedRows(c);
    var r1 := WriteRows(start, t, rows, MAX_POINTS);
    WriteRowsWrites(start, t, rows, MAX_POINTS);
    ClearedAreNotCells(r);
    forall f, i | 0 <= f < 10 && 0 <= i < MAX_POINTS
      ensures LegionWritten(ram, r, c, writeSize)[t.Cell(f, i)] == RowOf(Padded(c, i))[f]
    {
      assert t.IsCell(t.Cell(f, i), MAX_POINTS);
      assert r1[t.Cell(f, i)] == rows[i][f];
    }
  }

  lemma PointIsItsCells(ram: Ram, r: Registers, i: nat, p: Point)
    requires i < MAX_POINTS
    requires forall f | 0 <= f < 10 :: ram[TableOf(r).Cell(f, i)] == RowOf(p)[f]
    ensures PointAt(ram, r, i) == p
  {
    CellsOf(r, i);
    var t, row := TableOf(r), RowOf(p);
    assert ram[t.Cell(0, i)] == row[0] && ram[t.Cell(1, i)] == row[1] && ram[t.Cell(2, i)] == row[2];
    assert ram[t.Cell(3, i)] == row[3] && ram[t.Cell(4, i)] == row[4] && ram[t.Cell(5, i)] == row[5];
    assert ram[t.Cell(6, i)] == row[6] && ram[t.Cell(7, i)] == row[7] && ram[t.Cell(8, i)] == row[8];
    assert ram[t.Cell(9, i)] == row[9];
    PointOfRow(p);
  }

  lemma PointOfRow(p: Point)
    ensures var row := RowOf(p);
            p == Point(row[0], row[1], row[2], row[3], row[4], row[5], row[6], row[7], row[8], row[9])
  {
  }

  /** Reading back a written curve gives every point below its size, zeros above,
      and the level the EC restarts from. */
  lemma WriteThenRead(ram: Ram, r: Registers, c: Curve, writeSize: bool, maxRpm: u16)
    requires c.Valid() && Placed(r)
    ensures var back := LegionRead(LegionWritten(ram, r, c, writeSize), r, maxRpm);
            && (forall i | 0 <= i < MAX_POINTS :: back.points[i] == Padded(c, i))
            && back.size == (if writeSize then c.size else LegionRead(ram, r, maxRpm).size)
            && back.current == 0
  {
    PointsAreWritten(ram, r, c, writeSize);
    WrittenBytes(ram, r, c, writeSize);
  }

  lemma PointsAreWritten(ram: Ram, r: Registers, c: Curve, writeSize: bool)
    requires c.Valid() && Placed(r)
    ensures forall i: nat | i < MAX_POINTS :: PointAt(LegionWritten(ram, r, c, writeSize), r, i) == Padded(c, i)
  {
    WrittenBytes(ram, r, c, writeSize);
    var done := LegionWritten(ram, r, c, writeSize);
    forall i: nat | i < MAX_POINTS
      ensures PointAt(done, r, i) == Padded(c, i)
    {
      PointIsItsCells(done, r, i, Padded(c, i));
    }
  }

  /** No byte outside the table, the size and the cleared registers changes. */
  lemma StoreTouchesOnlyItsRegisters(ram: Ram, r: Registers, stackRpm: u16, attr: Attr, id: nat, value: int)
    requires Placed(r) && id < MAX_POINTS
    requires StoredRam(ram, r, stackRpm, attr, id, value).Some?
    ensures forall a: u16 | !TableOf(r).IsCell(a, MAX_POINTS) && (attr.Size? ==> a != r.pointsSize)
                && a !in {r.curPoint, 0xC5FE, 0xC5FF, 0xC634, 0xC635, 0xC636} ::
              StoredRam(ram, r, stackRpm, attr, id, value).value[a] == ram[a]
  {
    WrittenBytes(ram, r, Stored(LegionRead(ram, r, stackRpm), attr, id, value).value, attr.Size?);
  }

  /** What a show reports right after a store of value to the same attribute. The store
      encodes a speed with the maximum its own uninitialised curve happened to hold, and
      the show decodes it with that of another. */
  function Echo(storeRpm: u16, showRpm: u16, attr: Attr, value: int): int
    requires !attr.Size? && 0 <= value
  {
    if attr.Pwm1? || attr.Pwm2? then
      match SetSpeed(RpmHundred, storeRpm, value)
      case Some(s) => GetSpeed(RpmHundred, showRpm, s)
      case None => 0
    else value
  }

  /** Main property of the sysfs pair, for every register table whose cells are
      disjoint: after an accepted store to a point below the size, showing that
      attribute gives the stored value (through the speed codec for the two speeds),
      every other attribute of every point below the size and the size itself show
      what they did, and points at or above the size show zero. Nothing is assumed of
      the maximum speed either call finds in its uninitialised curve. */
  lemma StoreThenShow(ram: Ram, r: Registers, storeRpm: u16, showRpm: u16, attr: Attr, id: nat, value: int)
    requires Placed(r) && !attr.Size?
    requires id < LegionRead(ram, r, storeRpm).size
    requires StoredRam(ram, r, storeRpm, attr, id, value).Some?
    ensures var ram' := StoredRam(ram, r, storeRpm, attr, id, value).value;
            var size := LegionRead(ram, r, storeRpm).size;
            && 0 <= value
            && ShownFrom(ram', r, showRpm, attr, id) == Echo(storeRpm, showRpm, attr, value)
            && (forall other: Attr, i: nat | i < size && (other != attr || i != id) ::
                  ShownFrom(ram', r, showRpm, other, i) == ShownFrom(ram, r, showRpm, other, i))
            && (forall other: Attr, i: nat | size <= i < MAX_POINTS && !other.Size? ::
                  ShownFrom(ram', r, showRpm, other, i) == 0)
  {
    var before := LegionRead(ram, r, storeRpm);
    var c := Stored(before, attr, id, value).value;
    WriteThenRead(ram, r, c, false, showRpm);
    var was, after := LegionRead(ram, r, showRpm), LegionRead(LegionWritten(ram, r, c, false), r, showRpm);
    ShowsFollowPoints(before, c, was, after, attr, id, value);
  }

  /** The same on curves: `after` is `c` read back where `was` would have been read. */
  lemma ShowsFollowPoints(before: Curve, c: Curve, was: Curve, after: Curve, attr: Attr, id: nat, value: int)
    requires before.Valid() && was.Valid() && after.Valid() && !attr.Size?
    requires id < before.size == was.size == after.size
    requires before.speedUnit == was.speedUnit == after.speedUnit == RpmHundred
    requires was.points == before.points && after.maxRpm == was.maxRpm
    requires Stored(before, attr, id, value) == Some(c)
    requires forall i | 0 <= i < MAX_POINTS :: after.points[i] == Padded(c, i)
    ensures 0 <= value && Shown(after, attr, id) == Echo(before.maxRpm, was.maxRpm, attr, value)
    ensures forall other: Attr, i: nat | i < before.size && (other != attr || i != id) ::
              Shown(after, other, i) == Shown(was, other, i)
    ensures forall other: Attr, i: nat | before.size <= i < MAX_POINTS && !other.Size? ::
              Shown(after, other, i) == 0
  {
    var b := Encoded(before, attr, id, value).value;
    assert after.points[id] == WithField(before.points[id], attr, b);
    forall other: Attr, i: nat | i < before.size && (other != attr || i != id)
      ensures Shown(after, other, i) == Shown(was, other, i)
    {
      if i != id {
        assert after.points[i] == was.points[i];
      } else if !other.Size? {
        FieldsAreIndependent(was.points[id], attr, other, b);
      }
    }
    forall other: Attr, i: nat | before.size <= i < MAX_POINTS && !other.Size?
      ensures Shown(after, other, i) == 0
    {
      assert after.points[i] == ZERO_POINT;
    }
  }

  lemma FieldsAreIndependent(p: Point, attr: Attr, other: Attr, v: u8)
    requires !attr.Size? && !other.Size?
    ensures Field(WithField(p, attr, v), other) == if other == attr then v else Field(p, other)
  {
  }

  /** A store is accepted exactly when the point exists, its text is a number that is
      legal for the attribute and, for the speeds, the point is in use. */
  lemma StoreAcceptedIff(ram: Ram, r: Registers, stackRpm: u16, attr: Attr, id: int, parsed: Option<i32>)
    ensures Accepts(ram, r, stackRpm, attr, id, parsed) <==>
              && 0 <= id < MAX_POINTS && parsed.Some?
              && match attr
                 case Pwm1 | Pwm2 => 0 <= parsed.value <= 255 && id < LegionRead(ram, r, stackRpm).size
                 case Accel | Decel => 2 <= parsed.value <= 5
                 case Size => 1 <= parsed.value <= 10
                 case _ => 0 <= parsed.value <= 127
  {
  }

  /** Storing a size never changes the size: a smaller one only tops the three
      maximum temperatures of its last point, a larger one changes nothing in use. */
  lemma SizeStoreNeverResizes(ram: Ram, r: Registers, storeRpm: u16, readRpm: u16, id: nat, n: int)
    requires Placed(r) && id < MAX_POINTS && 1 <= n <= MAX_POINTS
    ensures StoredRam(ram, r, storeRpm, Size, id, n).Some?
    ensures var ram' := StoredRam(ram, r, storeRpm, Size, id, n).value;
            var before, after := LegionRead(ram, r, readRpm), LegionRead(ram', r, readRpm);
            && after.size == before.size
            && forall i | 0 <= i < before.size ::
                 after.points[i] == if i == n - 1 && n < before.size then Topped(before.points[i])
                                    else before.points[i]
  {
    var before := LegionRead(ram, r, storeRpm);
    var c := Resized(before, n).value;
    WriteThenRead(ram, r, c, true, readRpm);
    var after := LegionRead(LegionWritten(ram, r, c, true), r, readRpm);
    forall i | 0 <= i < before.size
      ensures after.points[i] == c.points[i]
    {
      assert Padded(c, i) == c.points[i];
    }
  }

  /** The v0 table meets the condition. */
  lemma V0IsPlaced()
    ensures Placed(REGISTERS_V0)
  {
    var t := TableOf(REGISTERS_V0);
    forall f, i | 0 <= f < 10 && 0 <= i < MAX_POINTS
      ensures t.Cell(f, i) == 0xC540 + 16 * f + i
    {
    }
    forall f, g, i, j | 0 <= f < 10 && 0 <= g < 10 && 0 <= i < MAX_POINTS && 0 <= j < MAX_POINTS
        && t.Cell(f, i) == t.Cell(g, j)
      ensures f == g && i == j
    {
      assert 0xC540 + 16 * f + i == 0xC540 + 16 * g + j;
    }
    forall a: u16 | t.IsCell(a, MAX_POINTS)
      ensures 0xC540 <= a < 0xC5DA
    {
      var f, i :| 0 <= f < 10 && 0 <= i < MAX_POINTS && t.Cell(f, i) == a;
    }
  }
}
