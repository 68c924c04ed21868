/** Two calls on the ports of the EC without the mutex: for any two there is an
    interleaving whose outcome neither order of the calls gives. */
module EcRaces {
  import opened MachineInts
  import opened EcPorts

  /** The controller after accesses i up to j of the program of op, with nothing between. */
  function Steps(c: Chip, op: Op, i: nat, j: nat): Chip
    requires j <= 12
    decreases j
  {
    if i >= j then c else Steps(c, op, i, j - 1).Next(Program(op)[j - 1])
  }

  /** Two calls under way. */
  datatype Race = Race(chip: Chip, pc1: nat, pc2: nat, got1: u8, got2: u8)

  /** One of the calls makes its next n accesses. The last access of a read obtains the
      byte. */
  datatype Burst = Burst(first: bool, n: nat)

  function Got(c: Chip, op: Op, pc: nat, n: nat, got: u8): u8
    requires pc + n <= 12
  {
    if pc < 12 && pc + n == 12 && op.Read? then Steps(c, op, pc, 11).Inb(DATA_PORT) else got
  }

  function After(op1: Op, op2: Op, r: Race, b: Burst): Race
  {
    if b.first then
      if r.pc1 + b.n > 12 then r
      else r.(chip := Steps(r.chip, op1, r.pc1, r.pc1 + b.n), pc1 := r.pc1 + b.n,
              got1 := Got(r.chip, op1, r.pc1, b.n, r.got1))
    else
      if r.pc2 + b.n > 12 then r
      else r.(chip := Steps(r.chip, op2, r.pc2, r.pc2 + b.n), pc2 := r.pc2 + b.n,
              got2 := Got(r.chip, op2, r.pc2, b.n, r.got2))
  }

  function AfterAll(op1: Op, op2: Op, r: Race, bs: seq<Burst>): Race
    decreases |bs|
  {
    if bs == [] then r else AfterAll(op1, op2, After(op1, op2, r, bs[0]), bs[1..])
  }

  predicate Over(r: Race) { r.pc1 == 12 && r.pc2 == 12 }

  /** The outcome is that of the calls one after the other, in either order. */
  predicate Explained(ram: Ram, op1: Op, op2: Op, r: Race)
  {
    || (r.chip.ram == Effect(Effect(ram, op1), op2)
        && r.got1 == Answer(ram, op1) && r.got2 == Answer(Effect(ram, op1), op2))
    || (r.chip.ram == Effect(Effect(ram, op2), op1)
        && r.got2 == Answer(ram, op2) && r.got1 == Answer(Effect(ram, op2), op1))
  }

  function Begun(c: Chip): Race { Race(c, 0, 0, 0, 0) }

  // ---- running part of a program ----

  lemma OneStep(c: Chip, op: Op, i: nat, k: nat)
    requires i <= k < 12
    ensures Steps(c, op, i, k + 1) == Steps(c, op, i, k).Next(Program(op)[k])
    ensures Steps(c, op, i, i) == c
  {
  }

  lemma FourSteps(c: Chip, op: Op, i: nat, k: nat)
    requires i <= k <= 8
    ensures var p := Program(op);
            && Steps(c, op, i, i) == c
            && Steps(c, op, i, k + 1) == Steps(c, op, i, k).Next(p[k])
            && Steps(c, op, i, k + 2) == Steps(c, op, i, k + 1).Next(p[k + 1])
            && Steps(c, op, i, k + 3) == Steps(c, op, i, k + 2).Next(p[k + 2])
            && Steps(c, op, i, k + 4) == Steps(c, op, i, k + 3).Next(p[k + 3])
  {
  }

  /** A whole program does exactly its operation, from any controller state. */
  lemma WholeProgram(c: Chip, op: Op)
    ensures var hi, lo := op.offset / 0x100, op.offset % 0x100;
            && Steps(c, op, 0, 1) == c.(index := REG_SELECT)
            && Steps(c, op, 0, 3) == Chip(REG_VALUE, SUB_HIGH, c.high, c.low, c.ram)
            && Steps(c, op, 0, 5) == Chip(REG_SELECT, SUB_HIGH, hi, c.low, c.ram)
            && Steps(c, op, 0, 8) == Chip(REG_VALUE, SUB_LOW, hi, lo, c.ram)
            && Steps(c, op, 0, 11) == Chip(REG_VALUE, SUB_DATA, hi, lo, c.ram)
            && Steps(c, op, 0, 12) == Chip(REG_VALUE, SUB_DATA, hi, lo, Effect(c.ram, op))
  {
    FourSteps(c, op, 0, 0);
    FourSteps(c, op, 0, 4);
    FourSteps(c, op, 0, 8);
  }

  lemma Hi(op: Op, c: Chip)
    ensures Chip(c.index, c.select, op.offset / 0x100, op.offset % 0x100, c.ram).Address() == op.offset
  {
  }

  /** Every byte the same. */
  function Filled(v: u8): (r: Ram)
    ensures forall i | 0 <= i < TWO_16 :: r[i] == v
  {
    seq(TWO_16, _ => v)
  }

  function Fresh(ram: Ram): Chip { Chip(REG_VALUE, SUB_DATA, 0, 0, ram) }

  function Other(v: u8): u8 { if v == 0 then 1 else 0 }

  lemma Three(op1: Op, op2: Op, r: Race, b1: Burst, b2: Burst, b3: Burst)
    ensures AfterAll(op1, op2, r, [b1, b2, b3])
         == After(op1, op2, After(op1, op2, After(op1, op2, r, b1), b2), b3)
  {
    assert [b1, b2, b3][1..] == [b2, b3] && [b2, b3][1..] == [b3] && [b3][1..] == [];
    var r1 := After(op1, op2, r, b1);
    var r2 := After(op1, op2, r1, b2);
    assert AfterAll(op1, op2, r2, [b3]) == AfterAll(op1, op2, After(op1, op2, r2, b3), []);
    assert AfterAll(op1, op2, r1, [b2, b3]) == AfterAll(op1, op2, r2, [b3]);
  }

  lemma Five(op1: Op, op2: Op, r: Race, b1: Burst, b2: Burst, b3: Burst, b4: Burst, b5: Burst)
    ensures AfterAll(op1, op2, r, [b1, b2, b3, b4, b5])
         == After(op1, op2, After(op1, op2, AfterAll(op1, op2, r, [b1, b2, b3]), b4), b5)
  {
    var r1 := After(op1, op2, r, b1);
    var r2 := After(op1, op2, r1, b2);
    assert [b1, b2, b3, b4, b5][1..] == [b2, b3, b4, b5] && [b2, b3, b4, b5][1..] == [b3, b4, b5];
    assert AfterAll(op1, op2, r1, [b2, b3, b4, b5]) == AfterAll(op1, op2, r2, [b3, b4, b5]);
    Three(op1, op2, r2, b3, b4, b5);
    Three(op1, op2, r, b1, b2, b3);
  }

  // ---- the races ----

  /** Different offsets: the other call moves the address latch before the last access. */
  lemma LatchIsMoved(op1: Op, op2: Op, ram: Ram)
    ensures var r := AfterAll(op1, op2, Begun(Fresh(ram)), [Burst(true, 11), Burst(false, 12), Burst(true, 1)]);
            && Over(r)
            && r.chip.ram == Effect(Effect(ram, op2), op1.(offset := op2.offset))
            && r.got1 == Answer(Effect(ram, op2), op1.(offset := op2.offset))
  {
    var r := Begun(Fresh(ram));
    Three(op1, op2, r, Burst(true, 11), Burst(false, 12), Burst(true, 1));
    WholeProgram(r.chip, op1);
    var r1 := After(op1, op2, r, Burst(true, 11));
    WholeProgram(r1.chip, op2);
    var r2 := After(op1, op2, r1, Burst(false, 12));
    Hi(op2, r2.chip);
    OneStep(r2.chip, op1, 11, 11);
  }

  lemma DifferentOffsetsRace(op1: Op, op2: Op) returns (ram: Ram, bs: seq<Burst>)
    requires op1.offset != op2.offset
    ensures Over(AfterAll(op1, op2, Begun(Fresh(ram)), bs))
    ensures !Explained(ram, op1, op2, AfterAll(op1, op2, Begun(Fresh(ram)), bs))
  {
    bs := [Burst(true, 11), Burst(false, 12), Burst(true, 1)];
    if op1.Write? {
      ram := Filled(Other(op1.value));
    } else if op2.Write? {
      ram := Filled(Other(op2.value));
    } else {
      ram := Filled(0)[op2.offset := 1];
    }
    LatchIsMoved(op1, op2, ram);
    if op1.Write? {
      var r := AfterAll(op1, op2, Begun(Fresh(ram)), bs);
      assert r.chip.ram[op1.offset] == ram[op1.offset];
      WriteArrives(ram, op1, op2, r);
    }
  }

  /** In either order a write to an offset the other call does not write leaves its value. */
  lemma WriteArrives(ram: Ram, op1: Op, op2: Op, r: Race)
    requires op1.Write? && (op2.Read? || op2.offset != op1.offset)
    ensures Explained(ram, op1, op2, r) ==> r.chip.ram[op1.offset] == op1.value
  {
    assert Effect(Effect(ram, op1), op2)[op1.offset] == op1.value;
    assert Effect(Effect(ram, op2), op1)[op1.offset] == op1.value;
  }

  /** A write and a read: the reader's first access takes the writer's byte for the number
      of a register, and the write is lost. */
  lemma WriteAndReadRace(op1: Op, op2: Op) returns (ram: Ram, bs: seq<Burst>)
    requires op1.Write? && op2.Read?
    ensures Over(AfterAll(op1, op2, Begun(Fresh(ram)), bs))
    ensures !Explained(ram, op1, op2, AfterAll(op1, op2, Begun(Fresh(ram)), bs))
  {
    ram := Filled(Other(op1.value));
    var b1, b2, b3, b4 := Burst(true, 11), Burst(false, 1), Burst(true, 1), Burst(false, 11);
    bs := [b1, b2, b3, b4];
    var r := Begun(Fresh(ram));
    WholeProgram(r.chip, op1);
    var r1 := After(op1, op2, r, b1);
    var r2 := After(op1, op2, r1, b2);
    WholeProgram(r1.chip, op2);
    var r3 := After(op1, op2, r2, b3);
    OneStep(r2.chip, op1, 11, 11);
    RestReads(r3.chip, op2);
    var r4 := After(op1, op2, r3, b4);
    assert r4.chip.ram == ram;
    assert bs[1..] == [b2, b3, b4];
    Three(op1, op2, r1, b2, b3, b4);
    WriteArrives(ram, op1, op2, r4);
  }

  lemma RestReads(c: Chip, op: Op)
    requires c.index == REG_SELECT && op.Read?
    ensures Steps(c, op, 1, 12).ram == c.ram
  {
    FourSteps(c, op, 1, 1);
    FourSteps(c, op, 1, 5);
    OneStep(c, op, 1, 9);
    OneStep(c, op, 1, 10);
    OneStep(c, op, 1, 11);
  }

  /** Two reads: one's address byte is stored as data. */
  lemma AddressIsStored(op1: Op, op2: Op, ram: Ram)
    requires op1.Read? && op2.Read?
    ensures var r := AfterAll(op1, op2, Begun(Fresh(ram)), [Burst(true, 3), Burst(false, 12), Burst(true, 9)]);
            Over(r) && r.chip.ram == ram[op2.offset := op1.offset / 0x100]
  {
    var r := Begun(Fresh(ram));
    Three(op1, op2, r, Burst(true, 3), Burst(false, 12), Burst(true, 9));
    WholeProgram(r.chip, op1);
    var r1 := After(op1, op2, r, Burst(true, 3));
    WholeProgram(r1.chip, op2);
    var c := After(op1, op2, r1, Burst(false, 12)).chip;
    Hi(op2, c);
    OneStep(c, op1, 3, 3);
    FourSteps(c, op1, 3, 4);
    FourSteps(c, op1, 3, 8);
  }

  lemma TwoReadsRace(op1: Op, op2: Op) returns (ram: Ram, bs: seq<Burst>)
    requires op1.Read? && op2.Read?
    ensures Over(AfterAll(op1, op2, Begun(Fresh(ram)), bs))
    ensures !Explained(ram, op1, op2, AfterAll(op1, op2, Begun(Fresh(ram)), bs))
  {
    var hi := op1.offset / 0x100;
    ram := Filled(Other(hi));
    bs := [Burst(true, 3), Burst(false, 12), Burst(true, 9)];
    AddressIsStored(op1, op2, ram);
    var stored := ram[op2.offset := hi];
    assert stored[op2.offset] == hi && ram[op2.offset] == Other(hi);
  }

  /** Two writes: one's selector byte becomes the other's low address byte. */
  lemma SelectorIsTakenForAddress(op1: Op, op2: Op, ram: Ram)
    requires op1.Write? && op2.Write? && op1.offset == op2.offset
    ensures var r1 := After(op1, op2, Begun(Fresh(ram)), Burst(true, 5));
            var r3 := After(op1, op2, After(op1, op2, r1, Burst(false, 8)), Burst(true, 1));
            && r3.chip == Chip(REG_VALUE, SUB_LOW, op1.offset / 0x100, SUB_LOW, ram) && r3.pc1 == 6 && r3.pc2 == 8
  {
    var r := Begun(Fresh(ram));
    WholeProgram(r.chip, op1);
    var r1 := After(op1, op2, r, Burst(true, 5));
    WholeProgram(r1.chip, op2);
    var r2 := After(op1, op2, r1, Burst(false, 8));
    OneStep(r2.chip, op1, 5, 5);
  }

  lemma StrayEnds(c: Chip, op1: Op, op2: Op)
    requires c.index == REG_VALUE && c.select == SUB_LOW && op1.Write? && op2.Write?
    ensures var stray := c.(select := SUB_DATA).Address();
            Steps(Steps(c, op2, 8, 12), op1, 6, 12).ram
            == c.ram[stray := op2.value][stray := op1.offset % 0x100][stray := op1.value]
  {
    FourSteps(c, op2, 8, 8);
    StrayRest(Steps(c, op2, 8, 12), op1);
  }

  /** If that byte differs, two writes to one offset both go astray. */
  lemma TwoWritesRace(op1: Op, op2: Op) returns (ram: Ram, bs: seq<Burst>)
    requires op1.Write? && op2.Write? && op1.offset == op2.offset && op1.offset % 0x100 != SUB_LOW
    ensures Over(AfterAll(op1, op2, Begun(Fresh(ram)), bs))
    ensures !Explained(ram, op1, op2, AfterAll(op1, op2, Begun(Fresh(ram)), bs))
  {
    var v: u8 := if 0 != op1.value && 0 != op2.value then 0 else if 1 != op1.value && 1 != op2.value then 1 else 2;
    ram := Filled(v);
    var b1, b2, b3, b4, b5 := Burst(true, 5), Burst(false, 8), Burst(true, 1), Burst(false, 4), Burst(true, 6);
    bs := [b1, b2, b3, b4, b5];
    var r := Begun(Fresh(ram));
    Five(op1, op2, r, b1, b2, b3, b4, b5);
    Three(op1, op2, r, b1, b2, b3);
    SelectorIsTakenForAddress(op1, op2, ram);
    var r3 := AfterAll(op1, op2, r, [b1, b2, b3]);
    StrayEnds(r3.chip, op1, op2);
    AwayFromOffset(op1, op2, ram, AfterAll(op1, op2, r, bs), r3.chip.(select := SUB_DATA).Address());
  }

  lemma AwayFromOffset(op1: Op, op2: Op, ram: Ram, r: Race, stray: u16)
    requires op1.Write? && op2.Write? && op1.offset == op2.offset != stray
    requires ram[op1.offset] != op1.value && ram[op1.offset] != op2.value
    requires r.chip.ram == ram[stray := op2.value][stray := op1.offset % 0x100][stray := op1.value]
    ensures !Explained(ram, op1, op2, r)
  {
    assert r.chip.ram[op1.offset] == ram[op1.offset];
    assert Effect(Effect(ram, op1), op2)[op1.offset] == op2.value;
    assert Effect(Effect(ram, op2), op1)[op1.offset] == op1.value;
  }

  /** From a latch gone astray the rest of a write stores there twice. */
  lemma StrayRest(c: Chip, op: Op)
    requires c.index == REG_VALUE && c.select == SUB_DATA && op.Write?
    ensures Steps(c, op, 6, 12).ram == c.ram[c.Address() := op.offset % 0x100][c.Address() := op.value]
  {
    OneStep(c, op, 6, 6);
    OneStep(c, op, 6, 7);
    FourSteps(c, op, 6, 8);
  }

  /** Otherwise a byte beside theirs is written. */
  lemma TwoWritesRaceAtLow(op1: Op, op2: Op) returns (ram: Ram, bs: seq<Burst>)
    requires op1.Write? && op2.Write? && op1.offset == op2.offset && op1.offset % 0x100 == SUB_LOW
    ensures Over(AfterAll(op1, op2, Begun(Fresh(ram)), bs))
    ensures !Explained(ram, op1, op2, AfterAll(op1, op2, Begun(Fresh(ram)), bs))
  {
    var hi := op1.offset / 0x100;
    ram := Filled(Other(hi));
    var b1, b2, b3, b4, b5 := Burst(true, 1), Burst(false, 8), Burst(true, 1), Burst(false, 4), Burst(true, 10);
    bs := [b1, b2, b3, b4, b5];
    var r := Begun(Fresh(ram));
    Five(op1, op2, r, b1, b2, b3, b4, b5);
    Three(op1, op2, r, b1, b2, b3);
    WholeProgram(r.chip, op1);
    var r1 := After(op1, op2, r, b1);
    WholeProgram(r1.chip, op2);
    var r2 := After(op1, op2, r1, b2);
    OneStep(r2.chip, op1, 1, 1);
    var r3 := After(op1, op2, r2, b3);
    var stray := Chip(REG_VALUE, SUB_DATA, hi, SUB_HIGH, ram);
    var beside: u16 := stray.Address();
    assert beside == hi * 0x100 + SUB_HIGH != op1.offset;
    FourSteps(r3.chip, op2, 8, 8);
    var r4 := After(op1, op2, r3, b4);
    assert r4.chip == stray.(ram := ram[beside := op2.value]);
    BesideIsWritten(r4.chip, op1);
  }

  /** From a latch gone astray a write up to its address bytes stores the high one there,
      and then itself where it should. */
  lemma BesideIsWritten(c: Chip, op: Op)
    requires c.index == REG_VALUE && c.select == SUB_DATA && op.Write?
    requires c.high == op.offset / 0x100 && c.low != op.offset % 0x100
    ensures Steps(c, op, 2, 12).ram[c.Address()] == op.offset / 0x100
  {
    var hi := op.offset / 0x100;
    OneStep(c, op, 2, 2);
    OneStep(c, op, 2, 3);
    FourSteps(c, op, 2, 4);
    FourSteps(c, op, 2, 8);
    var d := Steps(c, op, 2, 11);
    assert d == Chip(REG_VALUE, SUB_DATA, hi, op.offset % 0x100, c.ram[c.Address() := hi]);
    assert d.Address() == op.offset != c.Address();
  }

  /** The mutex is needed for any two calls: there is a content of the RAM and an
      interleaving of the two port sequences whose outcome, bytes read and RAM, is that of
      neither order of the calls. */
  lemma MutexIsNeeded(op1: Op, op2: Op) returns (ram: Ram, bs: seq<Burst>, swapped: bool)
    ensures var (a, b) := if swapped then (op2, op1) else (op1, op2);
            var r := AfterAll(a, b, Begun(Fresh(ram)), bs);
            Over(r) && !Explained(ram, a, b, r)
  {
    swapped := op1.offset == op2.offset && op1.Read? && op2.Write?;
    if op1.offset != op2.offset {
      ram, bs := DifferentOffsetsRace(op1, op2);
    } else if op1.Write? && op2.Read? {
      ram, bs := WriteAndReadRace(op1, op2);
    } else if op1.Read? && op2.Write? {
      ram, bs := WriteAndReadRace(op2, op1);
    } else if op1.Read? {
      ram, bs := TwoReadsRace(op1, op2);
    } else if op1.offset % 0x100 != SUB_LOW {
      ram, bs := TwoWritesRace(op1, op2);
    } else {
      ram, bs := TwoWritesRaceAtLow(op1, op2);
    }
  }
}
