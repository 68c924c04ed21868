/** EC RAM behind the super-IO index/data port pair, and the mutex that keeps the
    multi-step port sequences of different threads apart. */
module EcPorts {
  import opened MachineInts

  const ADDR_PORT: u16 := 0x4E
  const DATA_PORT: u16 := 0x4F
  const REG_SELECT: u8 := 0x2E
  const REG_VALUE: u8 := 0x2F
  const SUB_LOW: u8 := 0x10
  const SUB_HIGH: u8 := 0x11
  const SUB_DATA: u8 := 0x12

  /** The 16-bit addressed EC RAM. */
  type Ram = s: seq<u8> | |s| == TWO_16 witness seq(TWO_16, _ => 0)

  /** The part of the controller the ports reach: the register last indexed through
      the address port, the indirect sub-register chosen through REG_SELECT, and the
      address latch that SUB_DATA accesses go to. */
  datatype Chip = Chip(index: u8, select: u8, high: u8, low: u8, ram: Ram)
  {
    function Address(): u16 { high * TWO_8 + low }

    function Outb(value: u8, port: u16): Chip
    {
      if port == ADDR_PORT then this.(index := value)
      else if port != DATA_PORT then this
      else if index == REG_SELECT then this.(select := value)
      else if index != REG_VALUE then this
      else if select == SUB_HIGH then this.(high := value)
      else if select == SUB_LOW then this.(low := value)
      else if select == SUB_DATA then this.(ram := ram[Address() := value])
      else this
    }

    /** The state after one access; reading changes nothing. */
    function Next(a: Access): Chip
    {
      if a.Out? then Outb(a.value, a.port) else this
    }

    /** Reads of anything but the RAM window are never issued; the bus floats. */
    function Inb(port: u16): u8
    {
      if port == DATA_PORT && index == REG_VALUE && select == SUB_DATA then ram[Address()] else 0xFF
    }
  }

  /** A call of `ecram_portio_read` or `ecram_portio_write`. */
  datatype Op = Read(offset: u16) | Write(offset: u16, value: u8)

  datatype Access = Out(value: u8, port: u16) | In(port: u16)

  /** The port accesses between mutex_lock and mutex_unlock, in program order. */
  function Program(op: Op): (p: seq<Access>)
    ensures |p| == 12
  {
    [Out(0x2E, ADDR_PORT), Out(0x11, DATA_PORT), Out(0x2F, ADDR_PORT), Out(op.offset / 0x100, DATA_PORT),
     Out(0x2E, ADDR_PORT), Out(0x10, DATA_PORT), Out(0x2F, ADDR_PORT), Out(op.offset % 0x100, DATA_PORT),
     Out(0x2E, ADDR_PORT), Out(0x12, DATA_PORT), Out(0x2F, ADDR_PORT),
     if op.Read? then In(DATA_PORT) else Out(op.value, DATA_PORT)]
  }

  // ---- one thread: the driver's functions ----

  class EcRam {
    var chip: Chip

    constructor (c: Chip)
      ensures chip == c
    {
      chip := c;
    }

    method Outb(value: u8, port: u16)
      modifies this
      ensures chip == old(chip).Outb(value, port)
    {
      chip := chip.Outb(value, port);
    }

    method Inb(port: u16) returns (value: u8)
      ensures value == chip.Inb(port)
    {
      value := chip.Inb(port);
    }

    /** Both functions set up the address the same way, ending in the RAM window. */
    method Aim(offset: u16)
      modifies this
      ensures chip == Chip(REG_VALUE, SUB_DATA, offset / 0x100, offset % 0x100, old(chip.ram))
    {
      Outb(0x2E, ADDR_PORT);
      Outb(0x11, DATA_PORT);
      Outb(0x2F, ADDR_PORT);
      Outb(offset / 0x100, DATA_PORT);

      Outb(0x2E, ADDR_PORT);
      Outb(0x10, DATA_PORT);
      Outb(0x2F, ADDR_PORT);
      Outb(offset % 0x100, DATA_PORT);

      Outb(0x2E, ADDR_PORT);
      Outb(0x12, DATA_PORT);
      Outb(0x2F, ADDR_PORT);
    }

    /** `ecram_portio_read` */
    method PortRead(offset: u16) returns (value: u8)
      modifies this
      ensures value == old(chip.ram)[offset]
      ensures chip == Run(old(chip), Program(Read(offset))) && chip.ram == old(chip.ram)
    {
      ProgramRuns(chip, Read(offset));
      Aim(offset);
      value := Inb(DATA_PORT);
    }

    /** `ecram_portio_write` */
    method PortWrite(offset: u16, value: u8)
      modifies this
      ensures chip == Run(old(chip), Program(Write(offset, value)))
      ensures chip.ram == old(chip.ram)[offset := value]
    {
      ProgramRuns(chip, Write(offset, value));
      Aim(offset);
      Outb(value, DATA_PORT);
    }

    /** `ecram_read` */
    method ReadByte(offset: u16) returns (value: u8)
      modifies this
      ensures value == old(chip.ram)[offset] && chip.ram == old(chip.ram)
    {
      value := PortRead(offset);
    }

    /** `ecram_write` */
    method WriteByte(offset: u16, value: u8)
      modifies this
      ensures chip.ram == old(chip.ram)[offset := value]
    {
      PortWrite(offset, value);
    }
  }

  // ---- many threads: the atomic memory the callers may rely on ----

  /** A call that has taken effect, with the byte a read obtained (0 for a write). */
  datatype Commit = Commit(thread: nat, op: Op, got: u8)

  datatype Client = Out_ | Pending(op: Op) | Answered(op: Op, got: u8)

  datatype Memory = Memory(ram: Ram, clients: seq<Client>, history: seq<Commit>)

  /** What a caller can observe of one step. */
  datatype Label = Tau | Called(thread: nat, op: Op) | Returned(thread: nat, op: Op, got: u8)

  function Effect(ram: Ram, op: Op): Ram
  {
    if op.Write? then ram[op.offset := op.value] else ram
  }

  function Answer(ram: Ram, op: Op): u8
  {
    if op.Read? then ram[op.offset] else 0
  }

  ghost predicate Commits(m: Memory, t: nat, m': Memory)
  {
    && t < |m.clients| && m.clients[t].Pending?
    && var op := m.clients[t].op;
       var got := Answer(m.ram, op);
       m' == Memory(Effect(m.ram, op), m.clients[t := Answered(op, got)], m.history + [Commit(t, op, got)])
  }

  ghost predicate MemoryStep(m: Memory, l: Label, m': Memory)
  {
    match l
    case Called(t, op) =>
      t < |m.clients| && m.clients[t].Out_? && m' == m.(clients := m.clients[t := Pending(op)])
    case Returned(t, op, got) =>
      t < |m.clients| && m.clients[t] == Answered(op, got) && m' == m.(clients := m.clients[t := Out_])
    case Tau =>
      exists t: nat :: Commits(m, t, m')
  }

  // ---- many threads: interleaving at single port accesses ----

  datatype Thread =
    | Idle
    | Wants(op: Op)                      // at mutex_lock
    | Holds(op: Op, pc: nat, got: u8)    // pc accesses of the program done
    | Leaving(op: Op, got: u8)           // mutex released

  datatype System = System(chip: Chip, lock: Option<nat>, threads: seq<Thread>, history: seq<Commit>)

  function RunAccess(s: System, t: nat): System
    requires t < |s.threads| && s.threads[t].Holds? && s.threads[t].pc < 12
  {
    var Holds(op, pc, got) := s.threads[t];
    var a := Program(op)[pc];
    var chip' := s.chip.Next(a);
    var got' := if a.In? then s.chip.Inb(a.port) else got;
    s.(chip := chip',
       threads := s.threads[t := Holds(op, pc + 1, got')],
       history := if pc == 11 then s.history + [Commit(t, op, got')] else s.history)
  }

  /** Thread t makes its next move. Locking is enabled only while the mutex is free. */
  ghost predicate ThreadStep(s: System, t: nat, l: Label, s': System)
    requires t < |s.threads|
  {
    match s.threads[t]
    case Idle =>
      l.Called? && l.thread == t && s' == s.(threads := s.threads[t := Wants(l.op)])
    case Wants(op) =>
      l.Tau? && s.lock.None? && s' == s.(lock := Some(t), threads := s.threads[t := Holds(op, 0, 0)])
    case Holds(op, pc, got) =>
      l.Tau? &&
      if pc < 12 then s' == RunAccess(s, t)
      else s' == s.(lock := None, threads := s.threads[t := Leaving(op, got)])
    case Leaving(op, got) =>
      l == Returned(t, op, got) && s' == s.(threads := s.threads[t := Idle])
  }

  ghost predicate SystemStep(s: System, l: Label, s': System)
  {
    exists t: nat :: t < |s.threads| && ThreadStep(s, t, l, s')
  }

  ghost predicate Start(s: System)
  {
    && s.lock.None? && s.history == []
    && forall t | 0 <= t < |s.threads| :: s.threads[t].Idle?
  }

  /** How far the controller has been led through the program of op. */
  ghost predicate Led(c: Chip, op: Op, pc: nat)
  {
    && (pc in {1, 2, 5, 6, 9, 10} ==> c.index == REG_SELECT)
    && (pc in {3, 4, 7, 8, 11} ==> c.index == REG_VALUE)
    && (2 <= pc <= 5 ==> c.select == SUB_HIGH)
    && (6 <= pc <= 9 ==> c.select == SUB_LOW)
    && (10 <= pc <= 11 ==> c.select == SUB_DATA)
    && (4 <= pc <= 11 ==> c.high == op.offset / 0x100)
    && (8 <= pc <= 11 ==> c.low == op.offset % 0x100)
  }

  ghost predicate Inv(s: System)
  {
    forall t | 0 <= t < |s.threads| ::
      && (s.threads[t].Holds? <==> s.lock == Some(t))
      && (s.threads[t].Holds? ==> s.threads[t].pc <= 12 && Led(s.chip, s.threads[t].op, s.threads[t].pc))
      && (s.threads[t].Holds? && s.threads[t].pc < 12 ==> s.threads[t].got == 0)
  }

  function AbsClient(th: Thread): Client
  {
    match th
    case Idle => Out_
    case Wants(op) => Pending(op)
    case Holds(op, pc, got) => if pc < 12 then Pending(op) else Answered(op, got)
    case Leaving(op, got) => Answered(op, got)
  }

  function Abs(s: System): (m: Memory)
    ensures |m.clients| == |s.threads|
  {
    Memory(s.chip.ram, seq(|s.threads|, t requires 0 <= t < |s.threads| => AbsClient(s.threads[t])), s.history)
  }

  /** While one thread holds the mutex nobody else touches the controller, so one
      access leads the controller one step further and only the last one reaches RAM. */
  lemma AccessLeads(c: Chip, op: Op, pc: nat)
    requires pc < 12 && Led(c, op, pc)
    ensures var a := Program(op)[pc];
            var c' := c.Next(a);
            && Led(c', op, pc + 1)
            && (pc < 11 ==> c'.ram == c.ram && a.Out?)
            && (pc == 11 ==> c'.ram == Effect(c.ram, op))
            && (pc == 11 && a.In? ==> op.Read? && c.Inb(a.port) == Answer(c.ram, op))
  {
    if pc == 11 {
      assert c.Address() == op.offset;
    }
  }

  /** One step of the port-level system is one step of the atomic memory with the same
      label, or changes nothing the callers can tell. */
  lemma StepRefines(s: System, l: Label, s': System)
    requires Inv(s) && SystemStep(s, l, s')
    ensures Inv(s')
    ensures MemoryStep(Abs(s), l, Abs(s')) || (l.Tau? && Abs(s) == Abs(s'))
  {
    var t: nat :| t < |s.threads| && ThreadStep(s, t, l, s');
    assert |s'.threads| == |s.threads|;
    forall u | 0 <= u < |s.threads| && u != t
      ensures s'.threads[u] == s.threads[u] && Abs(s').clients[u] == Abs(s).clients[u]
    {
    }
    match s.threads[t]
    case Idle =>
      assert Abs(s').clients == Abs(s).clients[t := Pending(l.op)];
    case Wants(op) =>
      assert Abs(s').clients == Abs(s).clients;
    case Holds(op, pc, got) =>
      if pc < 12 {
        AccessLeads(s.chip, op, pc);
        if pc == 11 {
          assert Abs(s').clients == Abs(s).clients[t := Answered(op, Answer(s.chip.ram, op))];
          assert Commits(Abs(s), t, Abs(s'));
        } else {
          assert Abs(s').clients == Abs(s).clients;
        }
      } else {
        assert Abs(s').clients == Abs(s).clients;
      }
    case Leaving(op, got) =>
      assert Abs(s').clients == Abs(s).clients[t := Out_];
  }

  // ---- whole runs ----

  ghost predicate SystemRun(states: seq<System>, labels: seq<Label>)
  {
    && |states| == |labels| + 1 && Start(states[0])
    && forall i | 0 <= i < |labels| :: SystemStep(states[i], labels[i], states[i + 1])
  }

  /** A run of the atomic memory in which it may also rest during Tau. */
  ghost predicate MemoryRun(states: seq<Memory>, labels: seq<Label>)
  {
    && |states| == |labels| + 1
    && (forall c | c in states[0].clients :: c.Out_?) && states[0].history == []
    && forall i | 0 <= i < |labels| ::
         MemoryStep(states[i], labels[i], states[i + 1]) || (labels[i].Tau? && states[i] == states[i + 1])
  }

  lemma {:induction false} InvHolds(states: seq<System>, labels: seq<Label>, k: nat)
    requires SystemRun(states, labels) && k < |states|
    ensures Inv(states[k])
    decreases k
  {
    if k > 0 {
      InvHolds(states, labels, k - 1);
      StepRefines(states[k - 1], labels[k - 1], states[k]);
    }
  }

  function AbsRun(states: seq<System>): (ms: seq<Memory>)
    ensures |ms| == |states|
    ensures forall i | 0 <= i < |states| :: ms[i] == Abs(states[i])
  {
    seq(|states|, i requires 0 <= i < |states| => Abs(states[i]))
  }

  /** Any number of threads, any interleaving: every run of the port sequences shows
      its callers exactly a run of an atomic byte memory. */
  lemma PortsRefineAtomicMemory(states: seq<System>, labels: seq<Label>)
    requires SystemRun(states, labels)
    ensures MemoryRun(AbsRun(states), labels)
  {
    var ms := AbsRun(states);
    assert forall c | c in ms[0].clients :: c.Out_?;
    forall i | 0 <= i < |labels|
      ensures MemoryStep(ms[i], labels[i], ms[i + 1]) || (labels[i].Tau? && ms[i] == ms[i + 1])
    {
      InvHolds(states, labels, i);
      StepRefines(states[i], labels[i], states[i + 1]);
    }
  }

  /** The byte at an offset after a history: that of the latest write to it. */
  function Latest(initial: Ram, history: seq<Commit>, offset: u16): u8
  {
    if history == [] then initial[offset]
    else
      var last := history[|history| - 1].op;
      if last.Write? && last.offset == offset then last.value
      else Latest(initial, history[..|history| - 1], offset)
  }

  ghost predicate Explained(initial: Ram, m: Memory)
  {
    && (forall a: u16 :: m.ram[a] == Latest(initial, m.history, a))
    && (forall i | 0 <= i < |m.history| && m.history[i].op.Read? ::
          m.history[i].got == Latest(initial, m.history[..i], m.history[i].op.offset))
  }

  lemma StepStaysExplained(initial: Ram, m: Memory, l: Label, m': Memory)
    requires Explained(initial, m) && MemoryStep(m, l, m')
    ensures Explained(initial, m')
  {
    if l.Tau? {
      var t: nat :| Commits(m, t, m');
      assert m'.history[..|m.history|] == m.history;
      forall i | 0 <= i < |m'.history| && m'.history[i].op.Read?
        ensures m'.history[i].got == Latest(initial, m'.history[..i], m'.history[i].op.offset)
      {
        assert m'.history[..i] == m.history[..i];
      }
    }
  }

  /** In every run, each read obtained the latest write to its offset that had taken
      effect, and the RAM holds nothing but the latest writes: no access ever hit a
      byte other than its own. */
  lemma {:induction false} ReadsSeeLatestWrite(states: seq<System>, labels: seq<Label>, k: nat)
    requires SystemRun(states, labels) && k < |states|
    ensures Explained(states[0].chip.ram, Abs(states[k]))
    decreases k
  {
    if k > 0 {
      ReadsSeeLatestWrite(states, labels, k - 1);
      InvHolds(states, labels, k - 1);
      StepRefines(states[k - 1], labels[k - 1], states[k]);
      if Abs(states[k - 1]) != Abs(states[k]) {
        StepStaysExplained(states[0].chip.ram, Abs(states[k - 1]), labels[k - 1], Abs(states[k]));
      }
    }
  }

  /** Without the mutex the address bytes of two calls do mix: a thread that runs its
      whole write between another thread's two address bytes sends that thread's
      byte to an address neither of them asked for. */
  lemma UnlockedAddressesMix(c: Chip)
    ensures var mine, other := Write(0xC540, 1), Write(0x2001, 2);
            var c1 := Run(c, Program(mine)[..4]);
            var c2 := Run(c1, Program(other));
            var c3 := Run(c2, Program(mine)[4..]);
            c3.ram == c.ram[0x2001 := 2][0x2040 := 1]
  {
    var mine, other := Write(0xC540, 1), Write(0x2001, 2);
    var c1 := Chip(REG_VALUE, SUB_HIGH, 0xC5, c.low, c.ram);
    assert Run(c, Program(mine)[..4]) == c1 by { RunFour(c, Program(mine)[..4]); }
    var head, mid, tail := Program(other)[..4], Program(other)[4..8], Program(other)[8..];
    assert Program(other) == head + (mid + tail);
    RunSplits(c1, head, mid + tail);
    RunFour(c1, head);
    var d1 := Run(c1, head);
    RunSplits(d1, mid, tail);
    RunFour(d1, mid);
    RunFour(Run(d1, mid), tail);
    var c2 := Run(c1, Program(other));
    assert c2 == Chip(REG_VALUE, SUB_DATA, 0x20, 0x01, c.ram[0x2001 := 2]);
    var m1, m2 := Program(mine)[4..8], Program(mine)[8..];
    assert Program(mine)[4..] == m1 + m2;
    RunSplits(c2, m1, m2);
    RunFour(c2, m1);
    RunFour(Run(c2, m1), m2);
  }

  /** The accesses of p one after another with nothing in between. */
  function Run(c: Chip, p: seq<Access>): Chip
    decreases |p|
  {
    if p == [] then c else Run(c.Next(p[0]), p[1..])
  }

  /** An uninterrupted program performs exactly its operation, from any controller state. */
  lemma ProgramRuns(c: Chip, op: Op)
    ensures Run(c, Program(op)) ==
              Chip(REG_VALUE, SUB_DATA, op.offset / 0x100, op.offset % 0x100, Effect(c.ram, op))
  {
    var p := Program(op);
    var head, mid, tail := p[..4], p[4..8], p[8..];
    assert p == head + (mid + tail);
    RunSplits(c, head, mid + tail);
    RunSplits(Run(c, head), mid, tail);
    RunFour(c, head);
    RunFour(Run(c, head), mid);
    var e := Run(Run(c, head), mid);
    assert e.high == op.offset / 0x100 && e.low == op.offset % 0x100 && e.ram == c.ram;
    RunFour(e, tail);
    assert Chip(REG_VALUE, SUB_DATA, e.high, e.low, e.ram).Address() == op.offset;
  }

  lemma RunFour(c: Chip, p: seq<Access>)
    requires |p| == 4
    ensures Run(c, p) == c.Next(p[0]).Next(p[1]).Next(p[2]).Next(p[3])
  {
    assert p[1..][1..] == p[2..] && p[2..][1..] == p[3..] && p[3..][1..] == [];
    var c1 := c.Next(p[0]);
    assert Run(c, p) == Run(c1, p[1..]);
    var c2 := c1.Next(p[1]);
    assert Run(c1, p[1..]) == Run(c2, p[2..]);
    var c3 := c2.Next(p[2]);
    assert Run(c2, p[2..]) == Run(c3, p[3..]);
    assert Run(c3, p[3..]) == c3.Next(p[3]);
  }

  lemma {:induction false} RunSplits(c: Chip, p: seq<Access>, q: seq<Access>)
    ensures Run(c, p + q) == Run(Run(c, p), q)
    decreases |p|
  {
    if p == [] {
      assert p + q == q;
    } else {
      assert (p + q)[1..] == p[1..] + q;
      RunSplits(c.Next(p[0]), p[1..], q);
    }
  }
}
