/** The other fan-curve layouts: Legion 2024 (EC4), IdeaPad (EC2) and LOQ (EC3). */
module EcOtherLayouts {
  import opened MachineInts
  import opened EcPorts
  import opened ByteTable
  import opened SpeedCodec
  import opened FanCurve

  ghost function Rows(points: seq<Point>, n: nat, row: Point -> seq<u8>): (rows: seq<seq<u8>>)
    requires n <= |points|
    ensures |rows| == n && forall i | 0 <= i < n :: rows[i] == row(points[i])
  {
    seq(n, i requires 0 <= i < n => row(points[i]))
  }

  // ---- Legion 2024: three interleaved fields per fan ----

  const TABLE_2024 := Layout([0xC50A, 0xC50B, 0xC50C, 0xC531, 0xC532, 0xC533], 3, 10)

  function Row2024(p: Point): (row: seq<u8>)
    ensures |row| == 6
  {
    [p.cpuMax, p.gpuMax, p.speed1, p.cpuMax, p.gpuMax, p.speed2]
  }

  ghost function Written2024(ram: Ram, c: Curve): Ram
    requires c.Valid()
  {
    WriteRows(ram, TABLE_2024, Rows(c.points, 10, Row2024), 10)
  }

  function PointAt2024(ram: Ram, i: nat): Point
    requires i < 10
  {
    Point(ram[0xC50A + 3 * i + 2], ram[0xC531 + 3 * i + 2], 0, 0,
          ram[0xC50A + 3 * i], 0, ram[0xC50A + 3 * i + 1], 0, 0, 0)
  }

  function Read2024(ram: Ram, maxRpm: u16): (c: Curve)
    ensures c.Valid()
  {
    Curve(seq(10, i requires 0 <= i < 10 => PointAt2024(ram, i)), RpmHundred, maxRpm, 10, 0)
  }

  method ReadFancurve2024(ec: EcRam, curve: Fancurve)
    requires curve.Valid()
    modifies ec, curve, curve.points
    ensures ec.chip.ram == old(ec.chip.ram)
    ensures curve.Valid() && curve.Value() == Read2024(old(ec.chip.ram), old(curve.maxRpm))
  {
    curve.speedUnit := RpmHundred;
    curve.size := 10;
    curve.current := 0;
    ghost var ram := ec.chip.ram;
    for i := 0 to 10
      invariant ec.chip.ram == ram
      invariant curve.speedUnit == RpmHundred && curve.maxRpm == old(curve.maxRpm)
      invariant curve.size == 10 && curve.current == 0
      invariant forall j: nat | j < i :: curve.points[j] == PointAt2024(ram, j)
    {
      var off := 3 * i;
      var cpuMax := ec.ReadByte(0xC50A + off);
      var gpuMax := ec.ReadByte(0xC50A + off + 1);
      var speed1 := ec.ReadByte(0xC50A + off + 2);
      var speed2 := ec.ReadByte(0xC531 + off + 2);
      curve.points[i] := Point(speed1, speed2, 0, 0, cpuMax, 0, gpuMax, 0, 0, 0);
    }
    assert curve.points[..] == Read2024(ram, curve.maxRpm).points;
  }

  method WritePoint2024(ec: EcRam, i: nat, p: Point)
    requires i < 10
    modifies ec
    ensures ec.chip.ram == WriteRow(old(ec.chip.ram), TABLE_2024, i, Row2024(p), 6)
  {
    ghost var ram, t, row := ec.chip.ram, TABLE_2024, Row2024(p);
    var off := 3 * i;
    Addresses2024(i);
    ec.WriteByte(0xC50A + off, p.cpuMax);
    assert ec.chip.ram == WriteRow(ram, t, i, row, 1);
    ec.WriteByte(0xC50A + off + 1, p.gpuMax);
    assert ec.chip.ram == WriteRow(ram, t, i, row, 2);
    ec.WriteByte(0xC50A + off + 2, p.speed1);
    assert ec.chip.ram == WriteRow(ram, t, i, row, 3);
    ec.WriteByte(0xC531 + off, p.cpuMax);
    assert ec.chip.ram == WriteRow(ram, t, i, row, 4);
    ec.WriteByte(0xC531 + off + 1, p.gpuMax);
    assert ec.chip.ram == WriteRow(ram, t, i, row, 5);
    ec.WriteByte(0xC531 + off + 2, p.speed2);
  }

  lemma Addresses2024(i: nat)
    requires i < 10
    ensures var t := TABLE_2024;
            && t.Cell(0, i) == 0xC50A + 3 * i && t.Cell(1, i) == 0xC50B + 3 * i && t.Cell(2, i) == 0xC50C + 3 * i
            && t.Cell(3, i) == 0xC531 + 3 * i && t.Cell(4, i) == 0xC532 + 3 * i && t.Cell(5, i) == 0xC533 + 3 * i
  {
  }

  method WriteFancurve2024(ec: EcRam, curve: Fancurve)
    requires curve.Valid()
    modifies ec
    ensures ec.chip.ram == Written2024(old(ec.chip.ram), curve.Value())
  {
    ghost var start, rows := ec.chip.ram, Rows(curve.points[..], 10, Row2024);
    for i := 0 to 10
      invariant ec.chip.ram == WriteRows(start, TABLE_2024, rows, i)
    {
      WritePoint2024(ec, i, curve.points[i]);
    }
  }

  lemma Table2024IsDisjoint()
    ensures TABLE_2024.Disjoint()
    ensures forall f, i | 0 <= f < 6 && 0 <= i < 10 ::
              TABLE_2024.Cell(f, i) == (if f < 3 then 0xC50A + f else 0xC531 + f - 3) + 3 * i
  {
    forall f, i | 0 <= f < 6 && 0 <= i < 10
      ensures TABLE_2024.Cell(f, i) == (if f < 3 then 0xC50A + f else 0xC531 + f - 3) + 3 * i
    {
    }
  }

  /** This layout keeps two temperatures and two speeds; everything else of a curve
      reads back as zero, and only the sixty cells change. */
  lemma WriteThenRead2024(ram: Ram, c: Curve, maxRpm: u16)
    requires c.Valid()
    ensures var back := Read2024(Written2024(ram, c), maxRpm);
            forall i | 0 <= i < 10 ::
              back.points[i] == Point(c.points[i].speed1, c.points[i].speed2, 0, 0,
                                      c.points[i].cpuMax, 0, c.points[i].gpuMax, 0, 0, 0)
    ensures forall a: u16 | !TABLE_2024.IsCell(a, 10) :: Written2024(ram, c)[a] == ram[a]
  {
    Table2024IsDisjoint();
    var rows, done := Rows(c.points, 10, Row2024), Written2024(ram, c);
    WriteRowsWrites(ram, TABLE_2024, rows, 10);
    forall i | 0 <= i < 10
      ensures PointAt2024(done, i) == Point(c.points[i].speed1, c.points[i].speed2, 0, 0,
                                            c.points[i].cpuMax, 0, c.points[i].gpuMax, 0, 0, 0)
    {
      assert done[TABLE_2024.Cell(0, i)] == rows[i][0] && done[TABLE_2024.Cell(1, i)] == rows[i][1];
      assert done[TABLE_2024.Cell(2, i)] == rows[i][2] && done[TABLE_2024.Cell(5, i)] == rows[i][5];
    }
  }

  // ---- IdeaPad: eight points, each temperature kept twice ----

  const TABLE_IDEAPAD := Layout([0xC5A0, 0xC5A8, 0xC550, 0xC558, 0xC590, 0xC598, 0xC5C0, 0xC5C8, 0xC5D0, 0xC5D8], 1, 8)
  const CUR_POINT_IDEAPAD: u16 := 0xC5A0

  function RowIdeapad(p: Point): (row: seq<u8>)
    ensures |row| == 10
  {
    [p.speed1, p.speed2, p.cpuMax, p.cpuMax, p.cpuMin, p.cpuMin, p.gpuMax, p.gpuMax, p.gpuMin, p.gpuMin]
  }

  ghost function WrittenIdeapad(ram: Ram, c: Curve): Ram
    requires c.Valid()
  {
    WriteRows(ram[0xC5FE := 0][0xC5FF := 0], TABLE_IDEAPAD, Rows(c.points, 8, RowIdeapad), 8)
  }

  function PointAtIdeapad(ram: Ram, i: nat): Point
    requires i < 8
  {
    Point(ram[0xC5A0 + i], ram[0xC5A8 + i], 0, 0,
          ram[0xC550 + i], ram[0xC590 + i], ram[0xC5C0 + i], ram[0xC5D0 + i], 0, 0)
  }

  /** Points 8 and 9 keep what the caller's variable held. */
  function ReadIdeapad(ram: Ram, stack: Curve): (c: Curve)
    requires stack.Valid()
    ensures c.Valid()
  {
    Curve(seq(10, i requires 0 <= i < 10 => if i < 8 then PointAtIdeapad(ram, i) else stack.points[i]),
          RpmHundred, stack.maxRpm, 8, Min(ram[CUR_POINT_IDEAPAD], 8))
  }

  method ReadFancurveIdeapad(ec: EcRam, curve: Fancurve)
    requires curve.Valid()
    modifies ec, curve, curve.points
    ensures ec.chip.ram == old(ec.chip.ram)
    ensures curve.Valid() && curve.Value() == ReadIdeapad(old(ec.chip.ram), old(curve.Value()))
  {
    curve.speedUnit := RpmHundred;
    ghost var ram, stack := ec.chip.ram, old(curve.Value());
    for i := 0 to 8
      invariant ec.chip.ram == ram
      invariant curve.speedUnit == RpmHundred && curve.maxRpm == old(curve.maxRpm)
      invariant forall j: nat | j < 10 ::
          curve.points[j] == if j < i then PointAtIdeapad(ram, j) else stack.points[j]
    {
      var speed1 := ec.ReadByte(0xC5A0 + i);
      var speed2 := ec.ReadByte(0xC5A8 + i);
      var cpuMax := ec.ReadByte(0xC550 + i);
      var cpuMin := ec.ReadByte(0xC590 + i);
      var gpuMax := ec.ReadByte(0xC5C0 + i);
      var gpuMin := ec.ReadByte(0xC5D0 + i);
      curve.points[i] := Point(speed1, speed2, 0, 0, cpuMax, cpuMin, gpuMax, gpuMin, 0, 0);
    }
    curve.size := 8;
    var current := ec.ReadByte(CUR_POINT_IDEAPAD);
    curve.current := Min(current, 8);
    assert curve.points[..] == ReadIdeapad(ram, stack).points;
  }

  method WritePointIdeapad(ec: EcRam, i: nat, p: Point)
    requires i < 8
    modifies ec
    ensures ec.chip.ram == WriteRow(old(ec.chip.ram), TABLE_IDEAPAD, i, RowIdeapad(p), 10)
  {
    ghost var ram, t, row := ec.chip.ram, TABLE_IDEAPAD, RowIdeapad(p);
    AddressesIdeapad(i);
    ec.WriteByte(0xC5A0 + i, p.speed1);
    assert ec.chip.ram == WriteRow(ram, t, i, row, 1);
    var valr1 := ec.ReadByte(0xC5A0 + i);
    ec.WriteByte(0xC5A8 + i, p.speed2);
    assert ec.chip.ram == WriteRow(ram, t, i, row, 2);
    var valr2 := ec.ReadByte(0xC5A8 + i);
    ec.WriteByte(0xC550 + i, p.cpuMax);
    assert ec.chip.ram == WriteRow(ram, t, i, row, 3);
    ec.WriteByte(0xC550 + 8 + i, p.cpuMax);
    assert ec.chip.ram == WriteRow(ram, t, i, row, 4);
    ec.WriteByte(0xC590 + i, p.cpuMin);
    assert ec.chip.ram == WriteRow(ram, t, i, row, 5);
    ec.WriteByte(0xC590 + 8 + i, p.cpuMin);
    assert ec.chip.ram == WriteRow(ram, t, i, row, 6);
    ec.WriteByte(0xC5C0 + i, p.gpuMax);
    assert ec.chip.ram == WriteRow(ram, t, i, row, 7);
    ec.WriteByte(0xC5C0 + 8 + i, p.gpuMax);
    assert ec.chip.ram == WriteRow(ram, t, i, row, 8);
    ec.WriteByte(0xC5D0 + i, p.gpuMin);
    assert ec.chip.ram == WriteRow(ram, t, i, row, 9);
    ec.WriteByte(0xC5D0 + 8 + i, p.gpuMin);
  }

  lemma AddressesIdeapad(i: nat)
    requires i < 8
    ensures var t := TABLE_IDEAPAD;
            && t.Cell(0, i) == 0xC5A0 + i && t.Cell(1, i) == 0xC5A8 + i
            && t.Cell(2, i) == 0xC550 + i && t.Cell(3, i) == 0xC558 + i
            && t.Cell(4, i) == 0xC590 + i && t.Cell(5, i) == 0xC598 + i
            && t.Cell(6, i) == 0xC5C0 + i && t.Cell(7, i) == 0xC5C8 + i
            && t.Cell(8, i) == 0xC5D0 + i && t.Cell(9, i) == 0xC5D8 + i
  {
  }

  method WriteFancurveIdeapad(ec: EcRam, curve: Fancurve)
    requires curve.Valid()
    modifies ec
    ensures ec.chip.ram == WrittenIdeapad(old(ec.chip.ram), curve.Value())
  {
    ec.WriteByte(0xC5FE, 0);
    ec.WriteByte(0xC5FF, 0);
    ghost var start, rows := ec.chip.ram, Rows(curve.points[..], 8, RowIdeapad);
    for i := 0 to 8
      invariant ec.chip.ram == WriteRows(start, TABLE_IDEAPAD, rows, i)
    {
      WritePointIdeapad(ec, i, curve.points[i]);
    }
  }

  const BASES_IDEAPAD := TABLE_IDEAPAD.bases

  lemma TableIdeapadIsDisjoint()
    ensures TABLE_IDEAPAD.Disjoint()
    ensures forall f, i | 0 <= f < 10 && 0 <= i < 8 :: TABLE_IDEAPAD.Cell(f, i) == BASES_IDEAPAD[f] + i
  {
    forall f, g | 0 <= f < g < 10
      ensures BASES_IDEAPAD[f] + 8 <= BASES_IDEAPAD[g] || BASES_IDEAPAD[g] + 8 <= BASES_IDEAPAD[f]
    {
    }
    forall f, i | 0 <= f < 10 && 0 <= i < 8
      ensures TABLE_IDEAPAD.Cell(f, i) == BASES_IDEAPAD[f] + i
    {
    }
  }

  lemma IdeapadBytes(ram: Ram, c: Curve)
    requires c.Valid()
    ensures forall f, i | 0 <= f < 10 && 0 <= i < 8 ::
              WrittenIdeapad(ram, c)[TABLE_IDEAPAD.Cell(f, i)] == RowIdeapad(c.points[i])[f]
    ensures forall a: u16 | !TABLE_IDEAPAD.IsCell(a, 8) && a != 0xC5FE && a != 0xC5FF ::
              WrittenIdeapad(ram, c)[a] == ram[a]
  {
    TableIdeapadIsDisjoint();
    WriteRowsWrites(ram[0xC5FE := 0][0xC5FF := 0], TABLE_IDEAPAD, Rows(c.points, 8, RowIdeapad), 8);
  }

  /** The update counters are reset before the table is written, which leaves them alone. */
  lemma IdeapadCounters(ram: Ram, c: Curve)
    requires c.Valid()
    ensures WrittenIdeapad(ram, c)[0xC5FE] == 0 && WrittenIdeapad(ram, c)[0xC5FF] == 0
  {
    var start, t := ram[0xC5FE := 0][0xC5FF := 0], TABLE_IDEAPAD;
    TableIdeapadIsDisjoint();
    WriteRowsWrites(start, t, Rows(c.points, 8, RowIdeapad), 8);
    IdeapadCellsAreLow();
    var a: u16, b: u16 := 0xC5FE, 0xC5FF;
    assert !t.IsCell(a, 8) && !t.IsCell(b, 8);
    assert start[a] == 0 && start[b] == 0;
  }

  lemma IdeapadCellsAreLow()
    ensures forall a: u16 | TABLE_IDEAPAD.IsCell(a, 8) :: a < 0xC5E0
  {
    TableIdeapadIsDisjoint();
    forall a: u16 | TABLE_IDEAPAD.IsCell(a, 8)
      ensures a < 0xC5E0
    {
      var f, i :| 0 <= f < 10 && 0 <= i < 8 && TABLE_IDEAPAD.Cell(f, i) == a;
    }
  }

  /** Eight points survive with both speeds and four temperatures. The register read
      as the current level is the first fan speed, so the level shown is that speed. */
  lemma WriteThenReadIdeapad(ram: Ram, c: Curve, stack: Curve)
    requires c.Valid() && stack.Valid()
    ensures var back := ReadIdeapad(WrittenIdeapad(ram, c), stack);
            && (forall i | 0 <= i < 8 ::
                  back.points[i] == c.points[i].(accel := 0, decel := 0, icMax := 0, icMin := 0))
            && back.current == Min(c.points[0].speed1, 8)
    ensures WrittenIdeapad(ram, c)[0xC5FE] == 0 && WrittenIdeapad(ram, c)[0xC5FF] == 0
    ensures forall a: u16 | !TABLE_IDEAPAD.IsCell(a, 8) && a != 0xC5FE && a != 0xC5FF ::
              WrittenIdeapad(ram, c)[a] == ram[a]
  {
    IdeapadBytes(ram, c);
    IdeapadCounters(ram, c);
    var done := WrittenIdeapad(ram, c);
    forall i | 0 <= i < 8
      ensures PointAtIdeapad(done, i) == c.points[i].(accel := 0, decel := 0, icMax := 0, icMin := 0)
    {
      IdeapadCells(done, i, c.points[i]);
    }
  }

  lemma IdeapadCells(ram: Ram, i: nat, p: Point)
    requires i < 8
    requires forall f | 0 <= f < 10 :: ram[TABLE_IDEAPAD.Cell(f, i)] == RowIdeapad(p)[f]
    ensures PointAtIdeapad(ram, i) == p.(accel := 0, decel := 0, icMax := 0, icMin := 0)
  {
    assert TABLE_IDEAPAD.Cell(0, i) == 0xC5A0 + i && TABLE_IDEAPAD.Cell(1, i) == 0xC5A8 + i;
    assert TABLE_IDEAPAD.Cell(2, i) == 0xC550 + i && TABLE_IDEAPAD.Cell(4, i) == 0xC590 + i;
    assert TABLE_IDEAPAD.Cell(6, i) == 0xC5C0 + i && TABLE_IDEAPAD.Cell(8, i) == 0xC5D0 + i;
  }

  // ---- LOQ: a staging table that the EC copies when told to ----

  const TABLE_LOQ := Layout([0xCF02, 0xCF3E, 0xCF01, 0xCF00, 0xCF3D, 0xCF3C, 0xCF79, 0xCF78], 6, 10)
  const LOQ_CMDR: u16 := 0xCFB6

  function RowLoq(p: Point): (row: seq<u8>)
    ensures |row| == 8
  {
    [p.speed1, p.speed2, p.cpuMax, p.cpuMin, p.gpuMax, p.gpuMin, p.icMax, p.icMin]
  }

  /** `cmrd | (1 << 4)` */
  function WithExecute(b: u8): (r: u8)
    ensures r / 16 % 2 == 1 && r % 16 == b % 16 && r / 32 == b / 32
  {
    if b / 16 % 2 == 1 then b else b + 16
  }

  ghost function WrittenLoq(ram: Ram, c: Curve): Ram
    requires c.Valid()
  {
    var staged := WriteRows(ram, TABLE_LOQ, Rows(c.points, 10, RowLoq), 10);
    staged[LOQ_CMDR := WithExecute(staged[LOQ_CMDR])]
  }

  /** Speeds and CPU/GPU temperatures come from the live tables (`live2` is the base of
      the second one, which differs between the two LOQ register sets), the IC
      temperatures from the staging table. */
  function PointAtLoq(ram: Ram, live2: u16, i: nat): Point
    requires i < 10 && 2 <= live2 < 0xC600
  {
    Point(ram[0xC509 + 3 * i], ram[live2 + 3 * i], 0, 0,
          ram[0xC509 + 3 * i - 1], ram[0xC509 + 3 * i - 2],
          ram[live2 + 3 * i - 1], ram[live2 + 3 * i - 2],
          ram[0xCF79 + 6 * i], ram[0xCF78 + 6 * i])
  }

  method WritePointLoq(ec: EcRam, i: nat, p: Point)
    requires i < 10
    modifies ec
    ensures ec.chip.ram == WriteRow(old(ec.chip.ram), TABLE_LOQ, i, RowLoq(p), 8)
  {
    ghost var ram, t, row := ec.chip.ram, TABLE_LOQ, RowLoq(p);
    AddressesLoq(i);
    ec.WriteByte(0xCF02 + i * 6, p.speed1);
    assert ec.chip.ram == WriteRow(ram, t, i, row, 1);
    ec.WriteByte(0xCF3E + i * 6, p.speed2);
    assert ec.chip.ram == WriteRow(ram, t, i, row, 2);
    ec.WriteByte(0xCF01 + i * 6, p.cpuMax);
    assert ec.chip.ram == WriteRow(ram, t, i, row, 3);
    ec.WriteByte(0xCF00 + i * 6, p.cpuMin);
    assert ec.chip.ram == WriteRow(ram, t, i, row, 4);
    ec.WriteByte(0xCF3D + i * 6, p.gpuMax);
    assert ec.chip.ram == WriteRow(ram, t, i, row, 5);
    ec.WriteByte(0xCF3C + i * 6, p.gpuMin);
    assert ec.chip.ram == WriteRow(ram, t, i, row, 6);
    ec.WriteByte(0xCF79 + i * 6, p.icMax);
    assert ec.chip.ram == WriteRow(ram, t, i, row, 7);
    ec.WriteByte(0xCF78 + i * 6, p.icMin);
  }

  lemma AddressesLoq(i: nat)
    requires i < 10
    ensures var t := TABLE_LOQ;
            && t.Cell(0, i) == 0xCF02 + i * 6 && t.Cell(1, i) == 0xCF3E + i * 6
            && t.Cell(2, i) == 0xCF01 + i * 6 && t.Cell(3, i) == 0xCF00 + i * 6
            && t.Cell(4, i) == 0xCF3D + i * 6 && t.Cell(5, i) == 0xCF3C + i * 6
            && t.Cell(6, i) == 0xCF79 + i * 6 && t.Cell(7, i) == 0xCF78 + i * 6
  {
  }

  method WriteFancurveLoq(ec: EcRam, curve: Fancurve)
    requires curve.Valid()
    modifies ec
    ensures ec.chip.ram == WrittenLoq(old(ec.chip.ram), curve.Value())
  {
    ghost var start, rows := ec.chip.ram, Rows(curve.points[..], 10, RowLoq);
    for i := 0 to 10
      invariant ec.chip.ram == WriteRows(start, TABLE_LOQ, rows, i)
    {
      WritePointLoq(ec, i, curve.points[i]);
    }
    var cmrd := ec.ReadByte(LOQ_CMDR);
    ec.WriteByte(LOQ_CMDR, WithExecute(cmrd));
  }

  lemma TableLoqIsDisjoint()
    ensures TABLE_LOQ.Disjoint()
    ensures forall a: u16 | TABLE_LOQ.IsCell(a, 10) :: 0xCF00 <= a < LOQ_CMDR
    ensures forall f, i | 0 <= f < 8 && 0 <= i < 10 :: TABLE_LOQ.Cell(f, i) == TABLE_LOQ.bases[f] + 6 * i
  {
    forall f, i | 0 <= f < 8 && 0 <= i < 10
      ensures TABLE_LOQ.Cell(f, i) == TABLE_LOQ.bases[f] + 6 * i
    {
    }
    forall f, g, i, j | 0 <= f < 8 && 0 <= g < 8 && 0 <= i < 10 && 0 <= j < 10
        && TABLE_LOQ.Cell(f, i) == TABLE_LOQ.Cell(g, j)
      ensures f == g && i == j
    {
      assert TABLE_LOQ.bases[f] + 6 * i == TABLE_LOQ.bases[g] + 6 * j;
    }
  }

  /** A LOQ write stages all eight fields of all ten points, raises the execute bit and
      touches nothing else; until the EC acts on it, a read still finds the old speeds
      and CPU/GPU temperatures but already the new IC temperatures. */
  lemma LoqWriteIsStaged(ram: Ram, c: Curve, live2: u16)
    requires c.Valid() && 0xC509 <= live2 < 0xC600
    ensures var done := WrittenLoq(ram, c);
            && (forall f, i | 0 <= f < 8 && 0 <= i < 10 ::
                  done[TABLE_LOQ.Cell(f, i)] == RowLoq(c.points[i])[f])
            && done[LOQ_CMDR] == WithExecute(ram[LOQ_CMDR])
            && (forall a: u16 | !TABLE_LOQ.IsCell(a, 10) && a != LOQ_CMDR :: done[a] == ram[a])
            && (forall i: nat | i < 10 ::
                  PointAtLoq(done, live2, i)
                  == PointAtLoq(ram, live2, i).(icMax := c.points[i].icMax, icMin := c.points[i].icMin))
  {
    TableLoqIsDisjoint();
    var rows, done := Rows(c.points, 10, RowLoq), WrittenLoq(ram, c);
    WriteRowsWrites(ram, TABLE_LOQ, rows, 10);
    forall f, i | 0 <= f < 8 && 0 <= i < 10
      ensures done[TABLE_LOQ.Cell(f, i)] == RowLoq(c.points[i])[f]
    {
      assert TABLE_LOQ.IsCell(TABLE_LOQ.Cell(f, i), 10);
    }
    forall i: nat | i < 10
      ensures PointAtLoq(done, live2, i)
              == PointAtLoq(ram, live2, i).(icMax := c.points[i].icMax, icMin := c.points[i].icMin)
    {
      assert done[TABLE_LOQ.Cell(6, i)] == RowLoq(c.points[i])[6];
      assert done[TABLE_LOQ.Cell(7, i)] == RowLoq(c.points[i])[7];
    }
  }
}
