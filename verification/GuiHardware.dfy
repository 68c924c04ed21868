/** The GUI's writes to the hardware: a power setting, a curve, a whole profile, and
    where each leaves the machine. */
module GuiHardware {
  import opened MachineInts
  import opened SpeedCodec
  import opened FanRequest
  import opened CapData
  import opened PowerLimits
  import opened BootText
  import opened Descending
  import opened BootReplay
  import opened BootRestore
  import opened Profiles

  /** The hardware and the CHANGED flag. */
  datatype Live = Live(hw: Machine, changed: bool)

  /** `hw::write`: every write that reports success raises the flag. */
  function GuiWrite(env: Env, g: Live, node: Node, value: int, w: Wmi := ALL_SUCCEED): Live
  {
    var a := Written(env, g.hw, node, Show(value), w);
    Live(a.m, g.changed || a.ok)
  }

  function FanMax(env: Env): (max: int)
    ensures max > 0
  {
    EffectiveMaxRpm(env.maxRpm)
  }

  function MicroOf(v: i32): i32 { ToI32(v * 1_000_000) }

  function PowerSet(env: Env, g: Live, p: Profile, luck: Luck): Live
  {
    var g1 := GuiWrite(env, g, Pl1Node, MicroOf(p.pl1));
    var g2 := GuiWrite(env, g1, Pl2Node, MicroOf(p.pl2));
    var g3 := GuiWrite(env, g2, TauNode, MicroOf(p.tau));
    GuiWrite(env, GuiWrite(env, g3, FwPl1Node, p.pl1, luck.pl1), FwPl2Node, p.pl2, luck.pl2)
  }

  function PointSet(env: Env, g: Live, i: nat, pt: (int, int)): Live
  {
    GuiWrite(env, GuiWrite(env, g, TempNode(i), pt.0), PwmNode(i), RpmToPwm(pt.1, FanMax(env)))
  }

  function PointSetter(env: Env): (Live, nat, (int, int)) -> Live
  {
    (g: Live, i: nat, pt: (int, int)) => PointSet(env, g, i, pt)
  }

  /** `reaches` says whether the write forcing custom mode gets through. */
  function CustomForced(env: Env, g: Live, reaches: bool): Live
  {
    var g1 := if g.hw.mode != CUSTOM && reaches then GuiWrite(env, g, ModeNode, CUSTOM) else g;
    if g1.hw.fullspeed then GuiWrite(env, g1, FullspeedNode, 0) else g1
  }

  function CurveSet(env: Env, g: Live, pts: seq<(int, int)>, reaches: bool): Live
  {
    Downward(PointSetter(env), CustomForced(env, g, reaches), pts, 0)
  }

  /** What made the GUI apply a profile. */
  datatype Source = ByMode | ByCharger | ByPlan

  /** Which of an application's two writes of the mode get through, and how the firmware's
      calls go for its two limits. */
  datatype Luck = Luck(select: bool, force: bool, pl1: Wmi, pl2: Wmi)

  /** A profile bound to a mode does not set a mode of its own. */
  function Selected(env: Env, g: Live, p: Profile, source: Source, luck: Luck): Live
  {
    if source != ByMode && p.powermode != 0 && luck.select then GuiWrite(env, g, ModeNode, p.powermode) else g
  }

  /** Only the power plan honours a profile's full speed. */
  function Applied(env: Env, g: Live, p: Profile, source: Source, luck: Luck): Live
  {
    var g2 := CurveSet(env, PowerSet(env, Selected(env, g, p, source, luck), p, luck), p.curve, luck.force);
    if source == ByPlan && p.fanFullspeed then GuiWrite(env, g2, FullspeedNode, 1) else g2
  }

  class Hw {
    const env: Env
    var m: Machine
    var changed: bool

    function Value(): Live
      reads this
    {
      Live(m, changed)
    }

    constructor (env: Env, m: Machine)
      ensures this.env == env && Value() == Live(m, false)
    {
      this.env, this.m, changed := env, m, false;
    }

    method Write(node: Node, value: int, w: Wmi := ALL_SUCCEED) returns (ok: bool)
      modifies this
      ensures Value() == GuiWrite(env, old(Value()), node, value, w)
      ensures ok == Written(env, old(m), node, Show(value), w).ok
    {
      var a := Written(env, m, node, Show(value), w);
      m, ok := a.m, a.ok;
      if ok {
        changed := true;
      }
    }

    /** `take_changed` */
    method TakeChanged() returns (was: bool)
      modifies this
      ensures was == old(changed) && Value() == Live(old(m), false)
    {
      was := changed;
      changed := false;
    }

    /** `set_power`: every limit is attempted, whatever fails. */
    method SetPower(p: Profile, luck: Luck)
      modifies this
      ensures Value() == PowerSet(env, old(Value()), p, luck)
    {
      var _ := Write(Pl1Node, MicroOf(p.pl1));
      var _ := Write(Pl2Node, MicroOf(p.pl2));
      var _ := Write(TauNode, MicroOf(p.tau));
      var _ := Write(FwPl1Node, p.pl1, luck.pl1);
      var _ := Write(FwPl2Node, p.pl2, luck.pl2);
    }

    /** `write_curve` */
    method WriteCurve(pts: seq<(int, int)>, reaches: bool)
      modifies this
      ensures Value() == CurveSet(env, old(Value()), pts, reaches)
    {
      ForceCustom(reaches);
      WritePoints(pts);
    }

    method WritePoints(pts: seq<(int, int)>)
      modifies this
      ensures Value() == Downward(PointSetter(env), old(Value()), pts, 0)
    {
      ghost var step, start := PointSetter(env), Value();
      var idx := |pts|;
      while idx > 0
        invariant 0 <= idx <= |pts|
        invariant Value() == Downward(step, start, pts, idx)
      {
        idx := idx - 1;
        NextDown(step, start, pts, idx, Value());
        WritePoint(idx, pts[idx]);
      }
    }

    method ForceCustom(reaches: bool)
      modifies this
      ensures Value() == CustomForced(env, old(Value()), reaches)
    {
      if m.mode != CUSTOM && reaches {
        var _ := Write(ModeNode, CUSTOM);
      }
      if m.fullspeed {
        var _ := Write(FullspeedNode, 0);
      }
    }

    method WritePoint(idx: nat, pt: (int, int))
      modifies this
      ensures Value() == PointSetter(env)(old(Value()), idx, pt)
    {
      var _ := Write(TempNode(idx), pt.0);
      var _ := Write(PwmNode(idx), RpmToPwm(pt.1, FanMax(env)));
    }

    method Apply(p: Profile, source: Source, luck: Luck)
      modifies this
      ensures Value() == Applied(env, old(Value()), p, source, luck)
    {
      if source != ByMode && p.powermode != 0 && luck.select {
        var _ := Write(ModeNode, p.powermode);
      }
      SetPower(p, luck);
      WriteCurve(p.curve, luck.force);
      if source == ByPlan && p.fanFullspeed {
        var _ := Write(FullspeedNode, 1);
      }
    }
  }

  // ---- the mode ----

  /** Only the mode node changes the mode. */
  lemma OnlyModeNodeMovesMode(env: Env, g: Live, node: Node, value: int, w: Wmi := ALL_SUCCEED)
    requires node != ModeNode
    ensures GuiWrite(env, g, node, value, w).hw.mode == g.hw.mode
    ensures GuiWrite(env, g, node, value, w).hw.known == g.hw.known
    ensures |GuiWrite(env, g, node, value, w).hw.curve| == |g.hw.curve|
  {
  }

  lemma PowerKeepsMode(env: Env, g: Live, p: Profile, luck: Luck)
    ensures PowerSet(env, g, p, luck).hw.mode == g.hw.mode
  {
    var g1 := GuiWrite(env, g, Pl1Node, MicroOf(p.pl1));
    var g2 := GuiWrite(env, g1, Pl2Node, MicroOf(p.pl2));
    var g3 := GuiWrite(env, g2, TauNode, MicroOf(p.tau));
    var g4 := GuiWrite(env, g3, FwPl1Node, p.pl1, luck.pl1);
    OnlyModeNodeMovesMode(env, g, Pl1Node, MicroOf(p.pl1));
    OnlyModeNodeMovesMode(env, g1, Pl2Node, MicroOf(p.pl2));
    OnlyModeNodeMovesMode(env, g2, TauNode, MicroOf(p.tau));
    OnlyModeNodeMovesMode(env, g3, FwPl1Node, p.pl1, luck.pl1);
    OnlyModeNodeMovesMode(env, g4, FwPl2Node, p.pl2, luck.pl2);
  }

  lemma PointKeepsMode(env: Env, g: Live, i: nat, pt: (int, int))
    ensures PointSet(env, g, i, pt).hw.mode == g.hw.mode
  {
    var pwm := RpmToPwm(pt.1, FanMax(env));
    OnlyModeNodeMovesMode(env, g, TempNode(i), pt.0);
    OnlyModeNodeMovesMode(env, GuiWrite(env, g, TempNode(i), pt.0), PwmNode(i), pwm);
  }

  lemma PointsKeepMode(env: Env, g: Live, pts: seq<(int, int)>)
    ensures Downward(PointSetter(env), g, pts, 0).hw.mode == g.hw.mode
  {
    ghost var inv := (g1: Live, k: nat) => g1.hw.mode == g.hw.mode;
    forall g1: Live, i: nat | i < |pts| && inv(g1, i + 1)
      ensures inv(PointSetter(env)(g1, i, pts[i]), i)
    {
      PointKeepsMode(env, g1, i, pts[i]);
    }
    DownwardKeeps(PointSetter(env), g, pts, 0, inv);
  }

  /** A number parses the same with and without the newline a shell would add. */
  lemma ShownParses(i: i32)
    ensures Kstrtoint(Show(i), 0) == Kstrtoint(Show(i), 10) == Some(i)
    ensures 0 <= i ==> Kstrtouint(Show(i)) == Some(i) && Kstrtou64(Show(i)) == Some(i)
  {
    ShownIsParsed(i, 0);
    ShownIsParsed(i, 10);
    NewlineIsDropped(Show(i));
    ShowHasNoSeparator(i, '\n');
    assert Show(i)[|Show(i)| - 1] in Show(i);
    assert WithoutNewline(Show(i)) == Show(i);
    if 0 <= i {
      DigitsHaveNoSign(i);
      DigitsAreUnsigned(i, 0);
      DigitsAreUnsigned(i, 10);
    }
  }

  lemma GuiModeWrite(env: Env, g: Live, mode: int)
    requires IsMode(mode)
    ensures GuiWrite(env, g, ModeNode, mode) == Live(InMode(env, g.hw, mode).(known := mode), true)
  {
    ShownParses(mode);
  }

  lemma GuiFullspeedWrite(env: Env, g: Live, value: int)
    requires value == 0 || (value == 1 && g.hw.mode == CUSTOM)
    ensures GuiWrite(env, g, FullspeedNode, value) == Live(g.hw.(fullspeed := value != 0), true)
  {
    ShownParses(value);
  }

  /** Custom mode, if the write gets through or was not needed, with full speed off. */
  lemma ForcedIsCustom(env: Env, g: Live, reaches: bool)
    ensures CustomForced(env, g, reaches).hw
         == (if g.hw.mode == CUSTOM || !reaches then g.hw
             else InMode(env, g.hw, CUSTOM).(known := CUSTOM)).(fullspeed := false)
  {
    GuiModeWrite(env, g, CUSTOM);
    var g1 := if g.hw.mode != CUSTOM && reaches then GuiWrite(env, g, ModeNode, CUSTOM) else g;
    GuiFullspeedWrite(env, g1, 0);
  }

  /** An application ends in custom mode, or where its own mode write left the machine
      if the write forcing custom mode is lost. */
  lemma ApplicationEndsInMode(env: Env, g: Live, p: Profile, source: Source, luck: Luck)
    ensures var mode, selected := Applied(env, g, p, source, luck).hw.mode, Selected(env, g, p, source, luck).hw.mode;
            mode == if luck.force then CUSTOM else selected
  {
    var g1 := Selected(env, g, p, source, luck);
    var g2 := PowerSet(env, g1, p, luck);
    PowerKeepsMode(env, g1, p, luck);
    ForcedIsCustom(env, g2, luck.force);
    PointsKeepMode(env, CustomForced(env, g2, luck.force), p.curve);
    OnlyModeNodeMovesMode(env, CurveSet(env, g2, p.curve, luck.force), FullspeedNode, 1);
  }

  // ---- everything else ----

  predicate InMicroRange(v: i32) { 0 <= v <= 2147 }

  lemma MicroIsExact(v: i32)
    requires InMicroRange(v)
    ensures MicroOf(v) == v * 1_000_000
  {
  }

  lemma RaplWrite(env: Env, g: Live, node: Node, n: i32)
    requires node in {Pl1Node, Pl2Node, TauNode} && n >= 0
    ensures GuiWrite(env, g, node, n)
         == Live(g.hw.(rapl := RaplWith(g.hw.rapl, node, n)), true)
  {
    ShownParses(n);
  }

  lemma RaplWrites(env: Env, g: Live, pl1: i32, pl2: i32, tau: i32)
    requires pl1 >= 0 && pl2 >= 0 && tau >= 0
    ensures GuiWrite(env, GuiWrite(env, GuiWrite(env, g, Pl1Node, pl1), Pl2Node, pl2), TauNode, tau)
         == Live(g.hw.(rapl := Rapl(pl1, pl2, tau)), true)
  {
    var g1 := GuiWrite(env, g, Pl1Node, pl1);
    var g2 := GuiWrite(env, g1, Pl2Node, pl2);
    RaplWrite(env, g, Pl1Node, pl1);
    RaplWrite(env, g1, Pl2Node, pl2);
    RaplWrite(env, g2, TauNode, tau);
  }

  lemma FwPl1Write(env: Env, g: Live, pl1: i32)
    ensures GuiWrite(env, g, FwPl1Node, pl1).hw
         == g.hw.(firmware := FirmwareAfter(g.hw.firmware, g.hw.coupling, Long(pl1),
                                            Limit(TablesIn(env, g.hw.known), CPU_LONG_TERM, pl1)))
  {
    ShownParses(pl1);
  }

  lemma FwPl2Write(env: Env, g: Live, pl2: i32)
    ensures GuiWrite(env, g, FwPl2Node, pl2).hw
         == g.hw.(firmware := FirmwareAfter(g.hw.firmware, g.hw.coupling, Short(pl2),
                                            Limit(TablesIn(env, g.hw.known), CPU_SHORT_TERM, pl2)))
  {
    ShownParses(pl2);
  }

  lemma WritesKeepFlag(env: Env, g: Live, node: Node, value: int)
    ensures g.changed ==> GuiWrite(env, g, node, value).changed
  {
  }

  lemma PowerEndsAt(env: Env, g: Live, p: Profile)
    requires InMicroRange(p.pl1) && InMicroRange(p.pl2) && InMicroRange(p.tau)
    ensures PowerSet(env, g, p, LUCKY)
         == Live(g.hw.(rapl := Rapl(p.pl1 * 1_000_000, p.pl2 * 1_000_000, p.tau * 1_000_000),
                       firmware := FirmwareReplayed(env, g.hw.known, g.hw.firmware, g.hw.coupling,
                                                    Limits(p.pl1, p.pl2))),
                 true)
  {
    MicroIsExact(p.pl1);
    MicroIsExact(p.pl2);
    MicroIsExact(p.tau);
    RaplWrites(env, g, MicroOf(p.pl1), MicroOf(p.pl2), MicroOf(p.tau));
    var g3 := Live(g.hw.(rapl := Rapl(MicroOf(p.pl1), MicroOf(p.pl2), MicroOf(p.tau))), true);
    var g4 := GuiWrite(env, g3, FwPl1Node, p.pl1);
    FwPl1Write(env, g3, p.pl1);
    FwPl2Write(env, g4, p.pl2);
    WritesKeepFlag(env, g3, FwPl1Node, p.pl1);
    WritesKeepFlag(env, g4, FwPl2Node, p.pl2);
  }

  function Target(env: Env, pt: (int, int)): Pair { (pt.0, RpmToPwm(pt.1, FanMax(env))) }

  lemma TempWrite(env: Env, g: Live, i: nat, temp: i32)
    requires g.hw.mode == CUSTOM && i < |g.hw.curve|
    ensures var was := g.hw.curve[i];
            GuiWrite(env, g, TempNode(i), temp).hw
            == g.hw.(curve := g.hw.curve[i := was.(temp := if 0 <= temp <= 127 then temp else was.temp)])
  {
    ShownParses(temp);
    assert g.hw.curve[i := g.hw.curve[i]] == g.hw.curve;
  }

  lemma PwmWrite(env: Env, g: Live, i: nat, pwm: i32)
    requires g.hw.mode == CUSTOM && i < |g.hw.curve| && 0 <= pwm <= 255
    ensures GuiWrite(env, g, PwmNode(i), pwm).hw
         == g.hw.(curve := g.hw.curve[i := g.hw.curve[i].(speed := SetSpeed(RpmHundred, env.maxRpm, pwm).value)])
  {
    ShownParses(pwm);
  }

  lemma PointWrites(env: Env, g: Live, i: nat, pt: (int, int))
    requires g.hw.mode == CUSTOM && i < |g.hw.curve| && -TWO_31 <= pt.0 < TWO_31
    ensures PointSet(env, g, i, pt).hw
         == g.hw.(curve := g.hw.curve[i := PointAfter(env, g.hw.curve[i], Target(env, pt))])
    ensures g.changed ==> PointSet(env, g, i, pt).changed
  {
    var pwm := RpmToPwm(pt.1, FanMax(env));
    var g1 := GuiWrite(env, g, TempNode(i), pt.0);
    TempWrite(env, g, i, pt.0);
    WritesKeepFlag(env, g, TempNode(i), pt.0);
    PwmWrite(env, g1, i, pwm);
    WritesKeepFlag(env, g1, PwmNode(i), pwm);
  }

  function Targets(env: Env, pts: seq<(int, int)>): (ps: seq<Pair>)
    ensures |ps| == |pts| && forall i | 0 <= i < |pts| :: ps[i] == Target(env, pts[i])
  {
    seq(|pts|, i requires 0 <= i < |pts| => Target(env, pts[i]))
  }

  lemma NextPointWrites(env: Env, g: Live, g1: Live, pts: seq<(int, int)>, k: nat)
    requires g.hw.mode == CUSTOM && k < |pts| <= |g.hw.curve| && -TWO_31 <= pts[k].0 < TWO_31
    requires g1.hw == g.hw.(curve := Overwritten(env, g.hw.curve, Targets(env, pts), k + 1))
    ensures PointSet(env, g1, k, pts[k]).hw == g.hw.(curve := Overwritten(env, g.hw.curve, Targets(env, pts), k))
    ensures g1.changed ==> PointSet(env, g1, k, pts[k]).changed
  {
    OverwrittenStep(env, g.hw.curve, Targets(env, pts), k);
    PointWrites(env, g1, k, pts[k]);
  }

  lemma PointsEndAt(env: Env, g: Live, pts: seq<(int, int)>)
    requires g.hw.mode == CUSTOM && |pts| <= |g.hw.curve| && g.changed
    requires forall pt | pt in pts :: -TWO_31 <= pt.0 < TWO_31
    ensures Downward(PointSetter(env), g, pts, 0)
         == Live(g.hw.(curve := Overwritten(env, g.hw.curve, Targets(env, pts), 0)), true)
  {
    ghost var inv := (g1: Live, k: nat) => k <= |pts| && g1.changed
                     && g1.hw == g.hw.(curve := Overwritten(env, g.hw.curve, Targets(env, pts), k));
    NoneOverwritten(env, g.hw.curve, Targets(env, pts));
    forall g1: Live, i: nat | i < |pts| && inv(g1, i + 1)
      ensures inv(PointSetter(env)(g1, i, pts[i]), i)
    {
      assert pts[i] in pts;
      NextPointWrites(env, g, g1, pts, i);
    }
    DownwardKeeps(PointSetter(env), g, pts, 0, inv);
  }

  /** A profile whose values every layer accepts: ten points within the driver's range,
      a mode the firmware has or none, watts and seconds that fit in micro-units. */
  predicate Sound(p: Profile)
  {
    && |p.curve| == POINTS && (forall pt | pt in p.curve :: 0 <= pt.0 <= 127)
    && InMicroRange(p.pl1) && InMicroRange(p.pl2) && InMicroRange(p.tau)
    && (p.powermode == 0 || IsMode(p.powermode))
  }

  function Speed(env: Env, rpm: int): u8
  {
    SetSpeed(RpmHundred, env.maxRpm, RpmToPwm(rpm, FanMax(env))).value
  }

  function CurveOf(env: Env, pts: seq<(int, int)>): seq<Trip>
    requires forall pt | pt in pts :: 0 <= pt.0 <= 127
  {
    seq(|pts|, i requires 0 <= i < |pts| => assert pts[i] in pts; Trip(pts[i].0, Speed(env, pts[i].1)))
  }

  /** The machine after a profile is applied, whatever it was before: nothing of the old
      curve, power setting or full speed is left, and the firmware's limits were clamped
      in the mode known to the driver before custom mode was forced. */
  function Programmed(env: Env, m: Machine, p: Profile, source: Source): Machine
    requires Sound(p)
  {
    var selects := source != ByMode && p.powermode != 0;
    var mode := if selects then p.powermode else m.mode;
    var known := if selects then p.powermode else m.known;
    Machine(CUSTOM, if mode == CUSTOM then known else CUSTOM, source == ByPlan && p.fanFullspeed,
            Rapl(p.pl1 * 1_000_000, p.pl2 * 1_000_000, p.tau * 1_000_000),
            FirmwareReplayed(env, known, m.firmware, m.coupling, Limits(p.pl1, p.pl2)),
            m.coupling, CurveOf(env, p.curve))
  }

  const LUCKY := Luck(true, true, ALL_SUCCEED, ALL_SUCCEED)

  lemma ProfileIsProgrammed(env: Env, g: Live, p: Profile, source: Source)
    requires Sound(p) && |g.hw.curve| == POINTS
    ensures Applied(env, g, p, source, LUCKY) == Live(Programmed(env, g.hw, p, source), true)
  {
    var g1 := Selected(env, g, p, source, LUCKY);
    SelectedIs(env, g, p, source);
    var g2 := PowerSet(env, g1, p, LUCKY);
    PowerEndsAt(env, g1, p);
    CurveEndsAt(env, g2, p.curve);
    GuiFullspeedWrite(env, CurveSet(env, g2, p.curve, true), 1);
  }

  lemma SelectedIs(env: Env, g: Live, p: Profile, source: Source)
    requires Sound(p)
    ensures var g1 := Selected(env, g, p, source, LUCKY);
            && (g1.hw == if source == ByMode || p.powermode == 0 then g.hw
                         else InMode(env, g.hw, p.powermode).(known := p.powermode))
            && |g1.hw.curve| == |g.hw.curve|
  {
    if source != ByMode && p.powermode != 0 { GuiModeWrite(env, g, p.powermode); }
  }

  lemma CurveEndsAt(env: Env, g: Live, pts: seq<(int, int)>)
    requires |pts| == |g.hw.curve| && g.changed
    requires forall pt | pt in pts :: 0 <= pt.0 <= 127
    ensures CurveSet(env, g, pts, true)
         == Live(g.hw.(mode := CUSTOM, known := if g.hw.mode == CUSTOM then g.hw.known else CUSTOM,
                       fullspeed := false, curve := CurveOf(env, pts)), true)
  {
    ForcedIsCustom(env, g, true);
    ForcingRaisesFlag(env, g);
    CurveIsSet(env, CustomForced(env, g, true), pts);
  }

  lemma ForcingRaisesFlag(env: Env, g: Live)
    requires g.changed
    ensures CustomForced(env, g, true).changed
  {
  }

  lemma CurveIsSet(env: Env, g: Live, pts: seq<(int, int)>)
    requires g.hw.mode == CUSTOM && |pts| == |g.hw.curve| && g.changed
    requires forall pt | pt in pts :: 0 <= pt.0 <= 127
    ensures Downward(PointSetter(env), g, pts, 0) == Live(g.hw.(curve := CurveOf(env, pts)), true)
  {
    PointsEndAt(env, g, pts);
    AllWritten(env, g.hw.curve, pts);
  }

  lemma AllWritten(env: Env, curve: seq<Trip>, pts: seq<(int, int)>)
    requires |pts| == |curve| && forall pt | pt in pts :: 0 <= pt.0 <= 127
    ensures Overwritten(env, curve, Targets(env, pts), 0) == CurveOf(env, pts)
  {
    forall i | 0 <= i < |pts|
      ensures Overwritten(env, curve, Targets(env, pts), 0)[i] == CurveOf(env, pts)[i]
    {
      assert pts[i] in pts;
    }
  }

  /** Where the firmware's limits end does not depend on where they were, as long as both
      requests are answered. */
  lemma PowerForgetsThePast(env: Env, known: int, l: Limits, coupled: bool, asked: Limits)
    requires Limit(TablesIn(env, known), CPU_LONG_TERM, asked.pl1).Some?
    requires Limit(TablesIn(env, known), CPU_SHORT_TERM, asked.pl2).Some?
    ensures var c1, c2 := Limit(TablesIn(env, known), CPU_LONG_TERM, asked.pl1).value,
                          Limit(TablesIn(env, known), CPU_SHORT_TERM, asked.pl2).value;
            FirmwareReplayed(env, known, l, coupled, asked) == Limits(if coupled then Min(c1, c2) else c1, c2)
  {
    var c1, c2 := Limit(TablesIn(env, known), CPU_LONG_TERM, asked.pl1).value,
                  Limit(TablesIn(env, known), CPU_SHORT_TERM, asked.pl2).value;
    var l1 := After(l, Long(asked.pl1), coupled, c1, ALL_SUCCEED);
    assert FirmwareReplayed(env, known, l, coupled, asked) == After(l1, Short(asked.pl2), coupled, c2, ALL_SUCCEED);
  }

  // ---- the flag ----

  /** Only the firmware's limits differ, PL1 lowered or PL2 raised or both. */
  predicate Drifts(m: Machine, m': Machine)
  {
    && m' == m.(firmware := m'.firmware)
    && m'.firmware.pl1 <= m.firmware.pl1 && m.firmware.pl2 <= m'.firmware.pl2
  }

  /** The flag is up, or nothing has changed but limits that have drifted; and a raised
      flag stays up. */
  predicate Follows(g: Live, g': Live)
  {
    (g'.changed || Drifts(g.hw, g'.hw)) && (g.changed ==> g'.changed)
  }

  lemma WriteFollows(env: Env, g: Live, node: Node, value: int, w: Wmi := ALL_SUCCEED)
    ensures Follows(g, GuiWrite(env, g, node, value, w))
  {
  }

  /** A store of a firmware limit that fails after its push has landed: the push was
      needed, and every call but the last went through. */
  predicate SilentWrite(env: Env, m: Machine, node: Node, value: i32, w: Wmi)
  {
    && (node == FwPl1Node || node == FwPl2Node)
    && m.coupling && w.get && w.push && !w.land
    && var s := if node == FwPl1Node then Long(value) else Short(value);
       var v := Limit(TablesIn(env, m.known), s.Feature(), value);
       v.Some? && PushNeeded(m.firmware, s, v.value)
  }

  /** Exactly such a write changes the hardware and leaves the flag down. */
  lemma SilentWriteIff(env: Env, g: Live, node: Node, value: i32, w: Wmi)
    ensures var g' := GuiWrite(env, g, node, value, w);
            !g'.changed && g'.hw != g.hw <==> !g.changed && SilentWrite(env, g.hw, node, value, w)
  {
    if node == FwPl1Node || node == FwPl2Node {
      SilentStoreIff(env, g, node, value, w);
    } else {
      OtherWritesTell(env, g, node, value, w);
    }
  }

  lemma OtherWritesTell(env: Env, g: Live, node: Node, value: int, w: Wmi)
    requires node != FwPl1Node && node != FwPl2Node
    ensures GuiWrite(env, g, node, value, w).changed || GuiWrite(env, g, node, value, w) == g
  {
  }

  lemma SilentStoreIff(env: Env, g: Live, node: Node, value: i32, w: Wmi)
    requires node == FwPl1Node || node == FwPl2Node
    ensures var g' := GuiWrite(env, g, node, value, w);
            !g'.changed && g'.hw != g.hw <==> !g.changed && SilentWrite(env, g.hw, node, value, w)
  {
    var s := if node == FwPl1Node then Long(value) else Short(value);
    ShownParses(value);
    assert Written(env, g.hw, node, Show(value), w) == FirmwareStored(env, g.hw, s, w);
  }

  lemma PowerFollows(env: Env, g: Live, p: Profile, luck: Luck)
    ensures Follows(g, PowerSet(env, g, p, luck))
  {
    var g1 := GuiWrite(env, g, Pl1Node, MicroOf(p.pl1));
    var g2 := GuiWrite(env, g1, Pl2Node, MicroOf(p.pl2));
    var g3 := GuiWrite(env, g2, TauNode, MicroOf(p.tau));
    var g4 := GuiWrite(env, g3, FwPl1Node, p.pl1, luck.pl1);
    WriteFollows(env, g, Pl1Node, MicroOf(p.pl1));
    WriteFollows(env, g1, Pl2Node, MicroOf(p.pl2));
    WriteFollows(env, g2, TauNode, MicroOf(p.tau));
    WriteFollows(env, g3, FwPl1Node, p.pl1, luck.pl1);
    WriteFollows(env, g4, FwPl2Node, p.pl2, luck.pl2);
    FollowsInTurn(g, g1, g2);
    FollowsInTurn(g, g2, g3);
    FollowsInTurn(g, g3, g4);
    FollowsInTurn(g, g4, PowerSet(env, g, p, luck));
  }

  lemma FollowsInTurn(g: Live, g1: Live, g2: Live)
    requires Follows(g, g1) && Follows(g1, g2)
    ensures Follows(g, g2)
  {
  }

  lemma PointFollows(env: Env, g: Live, i: nat, pt: (int, int))
    ensures Follows(g, PointSet(env, g, i, pt))
  {
    var g1, pwm := GuiWrite(env, g, TempNode(i), pt.0), RpmToPwm(pt.1, FanMax(env));
    WriteFollows(env, g, TempNode(i), pt.0);
    WriteFollows(env, g1, PwmNode(i), pwm);
    FollowsInTurn(g, g1, GuiWrite(env, g1, PwmNode(i), pwm));
  }

  lemma PointsFollow(env: Env, g: Live, pts: seq<(int, int)>)
    ensures Follows(g, Downward(PointSetter(env), g, pts, 0))
  {
    ghost var inv := (g1: Live, k: nat) => Follows(g, g1);
    forall g1: Live, i: nat | i < |pts| && inv(g1, i + 1)
      ensures inv(PointSetter(env)(g1, i, pts[i]), i)
    {
      PointFollows(env, g1, i, pts[i]);
      FollowsInTurn(g, g1, PointSet(env, g1, i, pts[i]));
    }
    DownwardKeeps(PointSetter(env), g, pts, 0, inv);
  }

  lemma CurveFollows(env: Env, g: Live, pts: seq<(int, int)>, reaches: bool)
    ensures Follows(g, CurveSet(env, g, pts, reaches))
  {
    var g1 := if g.hw.mode != CUSTOM && reaches then GuiWrite(env, g, ModeNode, CUSTOM) else g;
    var g2 := CustomForced(env, g, reaches);
    WriteFollows(env, g, ModeNode, CUSTOM);
    WriteFollows(env, g1, FullspeedNode, 0);
    FollowsInTurn(g, g1, g2);
    PointsFollow(env, g2, pts);
    FollowsInTurn(g, g2, CurveSet(env, g, pts, reaches));
  }

  /** Whatever fails, an application raises the flag unless all it did was push limits. */
  lemma ApplicationFollows(env: Env, g: Live, p: Profile, source: Source, luck: Luck)
    ensures Follows(g, Applied(env, g, p, source, luck))
  {
    var g1 := Selected(env, g, p, source, luck);
    var g2 := PowerSet(env, g1, p, luck);
    var g3 := CurveSet(env, g2, p.curve, luck.force);
    WriteFollows(env, g, ModeNode, p.powermode);
    PowerFollows(env, g1, p, luck);
    CurveFollows(env, g2, p.curve, luck.force);
    WriteFollows(env, g3, FullspeedNode, 1);
    FollowsInTurn(g, g1, g2);
    FollowsInTurn(g, g2, g3);
    FollowsInTurn(g, g3, Applied(env, g, p, source, luck));
  }

  lemma WriteKeepsLength(env: Env, g: Live, node: Node, value: int, w: Wmi := ALL_SUCCEED)
    ensures |GuiWrite(env, g, node, value, w).hw.curve| == |g.hw.curve|
  {
  }

  lemma PowerKeepsLength(env: Env, g: Live, p: Profile, luck: Luck)
    ensures |PowerSet(env, g, p, luck).hw.curve| == |g.hw.curve|
  {
    var g1 := GuiWrite(env, g, Pl1Node, MicroOf(p.pl1));
    var g2 := GuiWrite(env, g1, Pl2Node, MicroOf(p.pl2));
    var g3 := GuiWrite(env, g2, TauNode, MicroOf(p.tau));
    var g4 := GuiWrite(env, g3, FwPl1Node, p.pl1, luck.pl1);
    WriteKeepsLength(env, g, Pl1Node, MicroOf(p.pl1));
    WriteKeepsLength(env, g1, Pl2Node, MicroOf(p.pl2));
    WriteKeepsLength(env, g2, TauNode, MicroOf(p.tau));
    WriteKeepsLength(env, g3, FwPl1Node, p.pl1, luck.pl1);
    WriteKeepsLength(env, g4, FwPl2Node, p.pl2, luck.pl2);
  }

  lemma PointOnTableIsFlagged(env: Env, g: Live, i: nat, pt: (int, int))
    ensures |PointSet(env, g, i, pt).hw.curve| == |g.hw.curve|
    ensures i < |g.hw.curve| ==> PointSet(env, g, i, pt).changed
  {
    var g1, pwm := GuiWrite(env, g, TempNode(i), pt.0), RpmToPwm(pt.1, FanMax(env));
    WriteKeepsLength(env, g, TempNode(i), pt.0);
    WriteKeepsLength(env, g1, PwmNode(i), pwm);
    ShownParses(pwm);
  }

  lemma PointsAreFlagged(env: Env, g: Live, pts: seq<(int, int)>)
    requires pts != [] && g.hw.curve != []
    ensures Downward(PointSetter(env), g, pts, 0).changed
    ensures |Downward(PointSetter(env), g, pts, 0).hw.curve| == |g.hw.curve|
  {
    ghost var inv := (g1: Live, k: nat) => |g1.hw.curve| == |g.hw.curve| && (k == 0 ==> g1.changed);
    forall g1: Live, i: nat | i < |pts| && inv(g1, i + 1)
      ensures inv(PointSetter(env)(g1, i, pts[i]), i)
    {
      PointOnTableIsFlagged(env, g1, i, pts[i]);
    }
    DownwardKeeps(PointSetter(env), g, pts, 0, inv);
  }

  /** With a point to write, its speed at least is always accepted, so the flag is up
      whatever fails. */
  lemma ApplicationRaisesFlag(env: Env, g: Live, p: Profile, source: Source, luck: Luck)
    requires p.curve != [] && g.hw.curve != []
    ensures Applied(env, g, p, source, luck).changed
    ensures |Applied(env, g, p, source, luck).hw.curve| == |g.hw.curve|
  {
    var g1 := Selected(env, g, p, source, luck);
    var g2 := PowerSet(env, g1, p, luck);
    var g3 := if g2.hw.mode != CUSTOM && luck.force then GuiWrite(env, g2, ModeNode, CUSTOM) else g2;
    WriteKeepsLength(env, g, ModeNode, p.powermode);
    PowerKeepsLength(env, g1, p, luck);
    WriteKeepsLength(env, g2, ModeNode, CUSTOM);
    WriteKeepsLength(env, g3, FullspeedNode, 0);
    PointsAreFlagged(env, CustomForced(env, g2, luck.force), p.curve);
    WriteKeepsLength(env, CurveSet(env, g2, p.curve, luck.force), FullspeedNode, 1);
  }
}
