/** What stores and shows do to single bytes of EC RAM, register by register. */
module EcBytes {
  import opened MachineInts
  import opened EcPorts
  import opened ByteTable
  import opened SpeedCodec
  import opened FanCurve
  import opened EcCurve
  import opened EcOtherLayouts

  // ---- the v0 family: one array of registers for each field ----

  /** The array a field of every point lives in. */
  function BaseOf(r: Registers, attr: Attr): u16
    requires !attr.Size?
  {
    match attr
    case Pwm1 => r.fan1 case Pwm2 => r.fan2
    case Accel => r.acc case Decel => r.dec
    case CpuTemp => r.cpuTemp case CpuHyst => r.cpuHyst
    case GpuTemp => r.gpuTemp case GpuHyst => r.gpuHyst
    case IcTemp => r.vrmTemp case IcHyst => r.vrmHyst
  }

  /** The same for the v0 registers, address by address. */
  lemma V0Bases()
    ensures BaseOf(REGISTERS_V0, Pwm1) == 0xC540 && BaseOf(REGISTERS_V0, Pwm2) == 0xC550
    ensures BaseOf(REGISTERS_V0, Accel) == 0xC560 && BaseOf(REGISTERS_V0, Decel) == 0xC570
    ensures BaseOf(REGISTERS_V0, CpuTemp) == 0xC580 && BaseOf(REGISTERS_V0, CpuHyst) == 0xC590
    ensures BaseOf(REGISTERS_V0, GpuTemp) == 0xC5A0 && BaseOf(REGISTERS_V0, GpuHyst) == 0xC5B0
    ensures BaseOf(REGISTERS_V0, IcTemp) == 0xC5C0 && BaseOf(REGISTERS_V0, IcHyst) == 0xC5D0
    ensures REGISTERS_V0.pointsSize == 0xC535 && REGISTERS_V0.curPoint == 0xC534
  {
  }

  function Byte(ram: Ram, r: Registers, attr: Attr, i: nat): u8
    requires !attr.Size?
  {
    ram[(BaseOf(r, attr) + i) % TWO_16]
  }

  /** How many points a curve read from RAM has. */
  function SizeIn(ram: Ram, r: Registers): nat
  {
    if ram[r.pointsSize] <= 10 then ram[r.pointsSize] else 10
  }

  lemma FieldIsByte(ram: Ram, r: Registers, attr: Attr, i: nat)
    requires i < MAX_POINTS && !attr.Size?
    ensures Field(PointAt(ram, r, i), attr) == Byte(ram, r, attr, i)
  {
  }

  /** A show reads the one byte of its field and point: temperatures and times as they are
      (whether or not the point is in use), speeds below the size as the PWM value the
      maximum makes of them, and the size capped at ten. */
  lemma ShowReadsByte(ram: Ram, r: Registers, rpm: u16, attr: Attr, i: nat)
    requires i < MAX_POINTS
    ensures var shown := ShownFrom(ram, r, rpm, attr, i);
            match attr
            case Size => shown == SizeIn(ram, r)
            case Pwm1 | Pwm2 =>
              shown == if i < SizeIn(ram, r) then Byte(ram, r, attr, i) * 25500 / EffectiveMaxRpm(rpm) else 0
            case _ => shown == Byte(ram, r, attr, i)
  {
    if !attr.Size? { FieldIsByte(ram, r, attr, i); }
    RpmHundredIsExact(rpm, 0, if attr.Size? then 0 else Byte(ram, r, attr, i));
  }

  /** The level a curve is read with, capped at its size. */
  lemma LevelIsCapped(ram: Ram, r: Registers, rpm: u16)
    ensures var level := LegionRead(ram, r, rpm).current;
            level == if ram[r.curPoint] <= SizeIn(ram, r) then ram[r.curPoint] else SizeIn(ram, r)
  {
  }

  /** Every write of a curve resets the fan update counters, the current level and the
      three internal levels. */
  lemma WriteResets(ram: Ram, r: Registers, c: Curve, writeSize: bool)
    requires c.Valid() && Placed(r)
    ensures var done := LegionWritten(ram, r, c, writeSize);
            && done[0xC5FE] == 0 && done[0xC5FF] == 0
            && done[r.curPoint] == 0
            && done[0xC634] == 0 && done[0xC635] == 0 && done[0xC636] == 0
  {
    var t, start := TableOf(r), ram[0xC5FE := 0][0xC5FF := 0];
    WriteRowsWrites(start, t, PaddedRows(c), MAX_POINTS);
    ClearedAreNotCells(r);
    var a: u16, b: u16 := 0xC5FE, 0xC5FF;
    assert !t.IsCell(a, MAX_POINTS) && !t.IsCell(b, MAX_POINTS);
    assert start[a] == 0 && start[b] == 0;
  }

  /** So does every accepted store. */
  lemma StoreResets(ram: Ram, r: Registers, rpm: u16, attr: Attr, id: nat, value: int)
    requires Placed(r) && id < MAX_POINTS && StoredRam(ram, r, rpm, attr, id, value).Some?
    ensures var ram' := StoredRam(ram, r, rpm, attr, id, value).value;
            && ram'[0xC5FE] == 0 && ram'[0xC5FF] == 0
            && ram'[r.curPoint] == 0
            && ram'[0xC634] == 0 && ram'[0xC635] == 0 && ram'[0xC636] == 0
  {
    WriteResets(ram, r, Stored(LegionRead(ram, r, rpm), attr, id, value).value, attr.Size?);
  }

  /** The bytes of a written curve. */
  lemma WrittenByte(ram: Ram, r: Registers, c: Curve, writeSize: bool, attr: Attr, i: nat)
    requires c.Valid() && Placed(r) && i < MAX_POINTS && !attr.Size?
    ensures Byte(LegionWritten(ram, r, c, writeSize), r, attr, i) == if i < c.size then Field(c.points[i], attr) else 0
  {
    PointsAreWritten(ram, r, c, writeSize);
    var done := LegionWritten(ram, r, c, writeSize);
    FieldIsByte(done, r, attr, i);
    assert PointAt(done, r, i) == Padded(c, i);
  }

  /** An accepted store to a point in use puts the value in the register of its field and
      point (a speed as the byte the setter encodes), keeps every other byte of the points
      in use, and clears the bytes of the others. */
  lemma StoreWritesByte(ram: Ram, r: Registers, rpm: u16, attr: Attr, id: nat, value: int)
    requires Placed(r) && !attr.Size? && id < SizeIn(ram, r)
    requires StoredRam(ram, r, rpm, attr, id, value).Some?
    ensures var ram' := StoredRam(ram, r, rpm, attr, id, value).value;
            && (if attr.Pwm1? || attr.Pwm2? then Some(Byte(ram', r, attr, id)) == SetSpeed(RpmHundred, rpm, value)
                else Byte(ram', r, attr, id) == value)
            && (forall other: Attr, i: nat | !other.Size? && i < SizeIn(ram, r) && (other != attr || i != id) ::
                  Byte(ram', r, other, i) == Byte(ram, r, other, i))
            && (forall other: Attr, i: nat | !other.Size? && SizeIn(ram, r) <= i < MAX_POINTS ::
                  Byte(ram', r, other, i) == 0)
  {
    var before := LegionRead(ram, r, rpm);
    var c := Stored(before, attr, id, value).value;
    var ram' := LegionWritten(ram, r, c, false);
    var b := Encoded(before, attr, id, value).value;
    WrittenByte(ram, r, c, false, attr, id);
    forall other: Attr, i: nat | !other.Size? && i < MAX_POINTS
      ensures Byte(ram', r, other, i)
              == if i >= SizeIn(ram, r) then 0 else if other == attr && i == id then b else Byte(ram, r, other, i)
    {
      WrittenByte(ram, r, c, false, other, i);
      FieldIsByte(ram, r, other, i);
      if i == id { FieldsAreIndependent(before.points[id], attr, other, b); }
    }
  }

  /** A store to a point beyond the size is refused for a speed; for anything else in range it
      reports success and is lost: the points in use keep every byte and the others are
      cleared, the one just stored included. */
  lemma StoreBeyondSizeIsLost(ram: Ram, r: Registers, rpm: u16, attr: Attr, id: nat, value: int)
    requires Placed(r) && !attr.Size? && SizeIn(ram, r) <= id < MAX_POINTS
    ensures var after := StoredRam(ram, r, rpm, attr, id, value);
            && (attr.Pwm1? || attr.Pwm2? ==> after.None?)
            && (after.Some? ==>
                  forall other: Attr, i: nat | !other.Size? && i < MAX_POINTS ::
                    Byte(after.value, r, other, i) == if i < SizeIn(ram, r) then Byte(ram, r, other, i) else 0)
  {
    var before := LegionRead(ram, r, rpm);
    var stored := Stored(before, attr, id, value);
    if stored.Some? {
      forall other: Attr, i: nat | !other.Size? && i < MAX_POINTS
        ensures Byte(LegionWritten(ram, r, stored.value, false), r, other, i)
                == if i < SizeIn(ram, r) then Byte(ram, r, other, i) else 0
      {
        WrittenByte(ram, r, stored.value, false, other, i);
        FieldIsByte(ram, r, other, i);
      }
    }
  }

  /** A field of a point in use after a size is asked for. */
  lemma ResizedField(c: Curve, n: int, attr: Attr, i: nat)
    requires c.Valid() && 1 <= n <= 10 && !attr.Size? && i < c.size
    ensures Resized(c, n).Some? && Resized(c, n).value.Valid() && Resized(c, n).value.size == c.size
    ensures Field(Resized(c, n).value.points[i], attr)
         == if i == n - 1 && n < c.size && (attr.CpuTemp? || attr.GpuTemp? || attr.IcTemp?) then 127
            else Field(c.points[i], attr)
  {
  }

  /** An accepted size leaves the size found, and if it is smaller tops the CPU, GPU and IC
      temperatures of its last point at 127. */
  lemma SizeStoreBytes(ram: Ram, r: Registers, rpm: u16, id: nat, n: int)
    requires Placed(r) && id < MAX_POINTS && 1 <= n <= 10
    ensures StoredRam(ram, r, rpm, Size, id, n).Some?
    ensures var ram', size := StoredRam(ram, r, rpm, Size, id, n).value, SizeIn(ram, r);
            && ram'[r.pointsSize] == size
            && forall attr: Attr, i: nat | !attr.Size? && i < size ::
                 Byte(ram', r, attr, i)
                 == if i == n - 1 && n < size && (attr.CpuTemp? || attr.GpuTemp? || attr.IcTemp?) then 127
                    else Byte(ram, r, attr, i)
  {
    var before := LegionRead(ram, r, rpm);
    ResizedFields(before, n);
    SizeWritten(ram, r, before, Resized(before, n).value, n);
  }

  lemma ResizedFields(c: Curve, n: int)
    requires c.Valid() && 1 <= n <= 10
    ensures Resized(c, n).Some? && Tops(c, Resized(c, n).value, n)
  {
    forall attr: Attr, i: nat | !attr.Size? && i < c.size
      ensures Field(Resized(c, n).value.points[i], attr)
              == if i == n - 1 && n < c.size && (attr.CpuTemp? || attr.GpuTemp? || attr.IcTemp?) then 127
                 else Field(c.points[i], attr)
    {
      ResizedField(c, n, attr, i);
    }
  }

  ghost predicate Tops(c: Curve, c': Curve, n: int)
    requires c.Valid()
  {
    && c'.Valid() && c'.size == c.size
    && forall attr: Attr, i: nat | !attr.Size? && i < c.size ::
         Field(c'.points[i], attr)
         == if i == n - 1 && n < c.size && (attr.CpuTemp? || attr.GpuTemp? || attr.IcTemp?) then 127
            else Field(c.points[i], attr)
  }

  lemma SizeWritten(ram: Ram, r: Registers, c: Curve, c': Curve, n: int)
    requires Placed(r) && c.Valid() && c.size == SizeIn(ram, r) && Tops(c, c', n)
    requires forall i: nat | i < c.size :: c.points[i] == PointAt(ram, r, i)
    ensures var ram' := LegionWritten(ram, r, c', true);
            && ram'[r.pointsSize] == c.size
            && forall attr: Attr, i: nat | !attr.Size? && i < c.size ::
                 Byte(ram', r, attr, i)
                 == if i == n - 1 && n < c.size && (attr.CpuTemp? || attr.GpuTemp? || attr.IcTemp?) then 127
                    else Byte(ram, r, attr, i)
  {
    WrittenBytes(ram, r, c', true);
    forall attr: Attr, i: nat | !attr.Size? && i < c.size
      ensures Byte(LegionWritten(ram, r, c', true), r, attr, i)
              == if i == n - 1 && n < c.size && (attr.CpuTemp? || attr.GpuTemp? || attr.IcTemp?) then 127
                 else Byte(ram, r, attr, i)
    {
      ToppedByte(ram, r, c, c', n, attr, i);
    }
  }

  lemma ToppedByte(ram: Ram, r: Registers, c: Curve, c': Curve, n: int, attr: Attr, i: nat)
    requires Placed(r) && c.Valid() && Tops(c, c', n) && !attr.Size? && i < c.size
    requires c.points[i] == PointAt(ram, r, i)
    ensures Byte(LegionWritten(ram, r, c', true), r, attr, i)
         == if i == n - 1 && n < c.size && (attr.CpuTemp? || attr.GpuTemp? || attr.IcTemp?) then 127
            else Byte(ram, r, attr, i)
  {
    WrittenByte(ram, r, c', true, attr, i);
    FieldIsByte(ram, r, attr, i);
  }

  // ---- the other layouts, address by address ----

  /** Six bytes for each point: each fan's entry holds both temperatures and its speed. */
  lemma Written2024Bytes(ram: Ram, c: Curve, i: nat)
    requires c.Valid() && i < 10
    ensures var done, p := Written2024(ram, c), c.points[i];
            && done[0xC50A + 3 * i] == p.cpuMax && done[0xC50B + 3 * i] == p.gpuMax && done[0xC50C + 3 * i] == p.speed1
            && done[0xC531 + 3 * i] == p.cpuMax && done[0xC532 + 3 * i] == p.gpuMax && done[0xC533 + 3 * i] == p.speed2
  {
    Table2024IsDisjoint();
    Addresses2024(i);
    var rows, done, t := Rows(c.points, 10, Row2024), Written2024(ram, c), TABLE_2024;
    WriteRowsWrites(ram, t, rows, 10);
    assert done[t.Cell(0, i)] == rows[i][0] && done[t.Cell(1, i)] == rows[i][1] && done[t.Cell(2, i)] == rows[i][2];
    assert done[t.Cell(3, i)] == rows[i][3] && done[t.Cell(4, i)] == rows[i][4] && done[t.Cell(5, i)] == rows[i][5];
  }

  /** Ten bytes for each of eight points, every temperature twice, and the update counters
      reset. */
  lemma WrittenIdeapadBytes(ram: Ram, c: Curve, i: nat)
    requires c.Valid() && i < 8
    ensures var done, p := WrittenIdeapad(ram, c), c.points[i];
            && done[0xC5FE] == 0 && done[0xC5FF] == 0
            && done[0xC5A0 + i] == p.speed1 && done[0xC5A8 + i] == p.speed2
            && done[0xC550 + i] == done[0xC558 + i] == p.cpuMax && done[0xC590 + i] == done[0xC598 + i] == p.cpuMin
            && done[0xC5C0 + i] == done[0xC5C8 + i] == p.gpuMax && done[0xC5D0 + i] == done[0xC5D8 + i] == p.gpuMin
  {
    IdeapadBytes(ram, c);
    AddressesIdeapad(i);
    IdeapadCounters(ram, c);
    var done, row, t := WrittenIdeapad(ram, c), RowIdeapad(c.points[i]), TABLE_IDEAPAD;
    assert done[t.Cell(0, i)] == row[0] && done[t.Cell(1, i)] == row[1] && done[t.Cell(2, i)] == row[2];
    assert done[t.Cell(3, i)] == row[3] && done[t.Cell(4, i)] == row[4] && done[t.Cell(5, i)] == row[5];
    assert done[t.Cell(6, i)] == row[6] && done[t.Cell(7, i)] == row[7] && done[t.Cell(8, i)] == row[8];
    assert done[t.Cell(9, i)] == row[9];
  }

  /** Bit 4 of the command register is raised, its other bits stay. */
  lemma LoqWriteExecutes(ram: Ram, c: Curve)
    requires c.Valid()
    ensures var was, now := ram[0xCFB6], WrittenLoq(ram, c)[0xCFB6];
            now / 16 % 2 == 1 && now % 16 == was % 16 && now / 32 == was / 32
  {
    LoqWriteIsStaged(ram, c, 0xC509);
  }

  /** Eight staging bytes for each of ten points. */
  lemma WrittenLoqBytes(ram: Ram, c: Curve, i: nat)
    requires c.Valid() && i < 10
    ensures var done, p := WrittenLoq(ram, c), c.points[i];
            && done[0xCF00 + 6 * i] == p.cpuMin && done[0xCF01 + 6 * i] == p.cpuMax && done[0xCF02 + 6 * i] == p.speed1
            && done[0xCF3C + 6 * i] == p.gpuMin && done[0xCF3D + 6 * i] == p.gpuMax && done[0xCF3E + 6 * i] == p.speed2
            && done[0xCF78 + 6 * i] == p.icMin && done[0xCF79 + 6 * i] == p.icMax
  {
    StagedRow(ram, c, i);
    AddressesLoq(i);
    var done, row, t := WrittenLoq(ram, c), RowLoq(c.points[i]), TABLE_LOQ;
    assert done[t.Cell(0, i)] == row[0] && done[t.Cell(1, i)] == row[1] && done[t.Cell(2, i)] == row[2];
    assert done[t.Cell(3, i)] == row[3] && done[t.Cell(4, i)] == row[4] && done[t.Cell(5, i)] == row[5];
    assert done[t.Cell(6, i)] == row[6] && done[t.Cell(7, i)] == row[7];
  }

  lemma StagedRow(ram: Ram, c: Curve, i: nat)
    requires c.Valid() && i < 10
    ensures forall f | 0 <= f < 8 :: WrittenLoq(ram, c)[TABLE_LOQ.Cell(f, i)] == RowLoq(c.points[i])[f]
  {
    LoqWriteIsStaged(ram, c, 0xC509);
  }
}
