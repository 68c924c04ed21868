/** The boot snapshot: what the helper writes from the live hardware, and what the boot
    script makes of it when it replays the file. */
module BootReplay {
  import opened MachineInts
  import opened SpeedCodec
  import opened CapData
  import opened PowerLimits
  import opened BootText
  import opened Descending

  // ---- the hardware behind sysfs ----

  /** A curve point as the table keeps it. */
  datatype Trip = Trip(temp: u8, speed: u8)

  datatype Rapl = Rapl(pl1: nat, pl2: nat, tau: nat)

  /** `mode` is what the firmware reports, `known` the driver's current_powermode; the
      curve has as many points as there are hwmon nodes for it. */
  datatype Machine = Machine(mode: int, known: int, fullspeed: bool, rapl: Rapl,
                             firmware: Limits, coupling: bool, curve: seq<Trip>)

  /** What a machine does not change: its advertised limits, its fan, and the table the
      firmware loads for each power mode. */
  datatype Env = Env(capdata: seq<Capability>, features: seq<DiscreteFeature>, ignoreCapdata: bool,
                     maxRpm: u16, table: (int, nat) -> Trip)

  const POINTS: nat := 10
  const CUSTOM: int := 255

  predicate IsMode(mode: int) { mode in {1, 2, 3, 224, 255} }

  function TablesIn(env: Env, mode: int): Tables
  {
    Tables(env.capdata, env.features, mode, env.ignoreCapdata)
  }

  /** A node the script writes. */
  datatype Node =
    | ModeNode | FullspeedNode | Pl1Node | Pl2Node | TauNode | FwPl1Node | FwPl2Node | CouplingNode
    | TempNode(i: nat) | PwmNode(i: nat)

  /** Every change of mode makes the firmware reload its fan table. */
  function InMode(env: Env, m: Machine, mode: int): Machine
  {
    m.(mode := mode, curve := seq(|m.curve|, i requires 0 <= i < |m.curve| => env.table(mode, i)))
  }

  function Kstrtouint(text: string): Option<u32>
  {
    match Unsigned(WithoutPlus(WithoutNewline(text)), 0)
    case None => None
    case Some(n) => if n < TWO_32 then Some(n) else None
  }

  /** What a write leaves, and whether it reports success. */
  datatype Attempt = Attempt(m: Machine, ok: bool)

  /** A store of a firmware limit. One that fails may have pushed the other limit. */
  function FirmwareStored(env: Env, m: Machine, s: PowerLimits.Store, w: Wmi): Attempt
  {
    match Limit(TablesIn(env, m.known), s.Feature(), s.request)
    case None => Attempt(m, false)
    case Some(v) => Attempt(m.(firmware := After(m.firmware, s, m.coupling, v, w)), w.land)
  }

  /** Outside custom mode the firmware reports success and ignores curve writes. */
  function CurveStored(m: Machine, i: nat, t: Trip): Machine
    requires i < |m.curve|
  {
    if m.mode == CUSTOM then m.(curve := m.curve[i := t]) else m
  }

  /** Writing a line of text to a node; w is how the firmware's calls go, which matters to
      its two limits. */
  function Written(env: Env, m: Machine, node: Node, text: string, w: Wmi := ALL_SUCCEED): Attempt
  {
    match node
    case ModeNode =>
      var v := Kstrtouint(text);
      if v.None? || !IsMode(ToU8(v.value)) then Attempt(m, false)
      else Attempt(InMode(env, m, ToU8(v.value)).(known := ToI32(v.value)), true)
    case FullspeedNode =>
      var v := Kstrtouint(text);
      if v.None? || (v.value != 0 && m.mode != CUSTOM) then Attempt(m, false)
      else Attempt(m.(fullspeed := v.value != 0), true)
    case Pl1Node =>
      var v := Kstrtou64(text);
      if v.None? then Attempt(m, false) else Attempt(m.(rapl := m.rapl.(pl1 := v.value)), true)
    case Pl2Node =>
      var v := Kstrtou64(text);
      if v.None? then Attempt(m, false) else Attempt(m.(rapl := m.rapl.(pl2 := v.value)), true)
    case TauNode =>
      var v := Kstrtou64(text);
      if v.None? then Attempt(m, false) else Attempt(m.(rapl := m.rapl.(tau := v.value)), true)
    case FwPl1Node =>
      var v := Kstrtoint(text, 10);
      if v.None? then Attempt(m, false) else FirmwareStored(env, m, Long(v.value), w)
    case FwPl2Node =>
      var v := Kstrtoint(text, 10);
      if v.None? then Attempt(m, false) else FirmwareStored(env, m, Short(v.value), w)
    case CouplingNode =>
      var v := Kstrtoint(text, 0);
      if v.None? then Attempt(m, false) else Attempt(m.(coupling := v.value != 0), true)
    case TempNode(i) =>
      var v := Kstrtoint(text, 0);
      if i >= |m.curve| || v.None? || !(0 <= v.value <= 127) then Attempt(m, false)
      else Attempt(CurveStored(m, i, m.curve[i].(temp := v.value)), true)
    case PwmNode(i) =>
      var v := Kstrtoint(text, 0);
      if i >= |m.curve| || v.None? then Attempt(m, false)
      else
        match SetSpeed(RpmHundred, env.maxRpm, v.value)
        case None => Attempt(m, false)
        case Some(s) => Attempt(CurveStored(m, i, m.curve[i].(speed := s)), true)
  }

  // ---- the snapshot ----

  function ShowBool(b: bool): string { if b then "1" else "0" }

  function ShownPwm(env: Env, t: Trip): int { GetSpeed(RpmHundred, env.maxRpm, t.speed) }

  function ShownCurve(env: Env, curve: seq<Trip>): (ps: seq<Pair>)
    ensures |ps| == |curve|
    ensures forall i | 0 <= i < |curve| :: ps[i] == (curve[i].temp as int, ShownPwm(env, curve[i]))
  {
    seq(|curve|, i requires 0 <= i < |curve| => (curve[i].temp as int, ShownPwm(env, curve[i])))
  }

  datatype Setting = Setting(key: string, val: string)

  /** The settings `cmd_boot_save` writes, in its order, for the state modelled here. */
  function Settings(env: Env, m: Machine): seq<Setting>
  {
    LimitSettings(m) + if |m.curve| < POINTS then [] else CurveSettings(env, ShownCurve(env, m.curve[..POINTS]))
  }

  function CurveSettings(env: Env, ps: seq<Pair>): seq<Setting>
  {
    [Setting("CURVE_PWM", ShowCurve(ps)), Setting("FAN_MAX", Show(EffectiveMaxRpm(env.maxRpm)))]
  }

  function LimitSettings(m: Machine): seq<Setting>
  {
    ModeSettings(m) + RaplSettings(m.rapl) + FirmwareSettings(m.firmware)
    + [Setting("PL_COUPLING", ShowBool(m.coupling))]
  }

  function ModeSettings(m: Machine): seq<Setting>
  {
    [Setting("POWERMODE", Show(m.mode)), Setting("FAN_FULLSPEED", ShowBool(m.fullspeed))]
  }

  function RaplSettings(r: Rapl): seq<Setting>
  {
    [Setting("PL1_UW", Show(r.pl1)), Setting("PL2_UW", Show(r.pl2)), Setting("TAU_US", Show(r.tau))]
  }

  function FirmwareSettings(l: Limits): seq<Setting>
  {
    [Setting("FW_PL1", Show(l.pl1)), Setting("FW_PL2", Show(l.pl2))]
  }

  const WRITTEN_BY: string := "# written by 83sc-control boot-save"
  const REPLAYED_BY: string := "# replayed by 83sc-thermal.service"
  const HEADER: seq<string> := [WRITTEN_BY, REPLAYED_BY]

  function ShownSettings(ss: seq<Setting>): (lines: seq<string>)
    ensures |lines| == |ss| && forall i | 0 <= i < |ss| :: lines[i] == ss[i].key + "=" + ss[i].val
  {
    seq(|ss|, i requires 0 <= i < |ss| => ss[i].key + "=" + ss[i].val)
  }

  function SnapshotLines(env: Env, m: Machine): seq<string> { HEADER + ShownSettings(Settings(env, m)) }

  /** `cmd_boot_save` */
  method BootSave(env: Env, m: Machine) returns (text: string)
    ensures text == File(SnapshotLines(env, m))
  {
    var settings := LimitSettings(m);
    var curve := CollectCurve(env, m);
    if curve != [] {
      settings := settings + [Setting("CURVE_PWM", Join(curve, ',')),
                              Setting("FAN_MAX", Show(EffectiveMaxRpm(env.maxRpm)))];
    }
    assert settings == Settings(env, m);
    var lines := PutLines(HEADER, settings);
    text := File(lines);
  }

  method PutLines(header: seq<string>, settings: seq<Setting>) returns (lines: seq<string>)
    ensures lines == header + ShownSettings(settings)
  {
    lines := header;
    for i := 0 to |settings|
      invariant lines == header + ShownSettings(settings)[..i]
    {
      lines := lines + [settings[i].key + "=" + settings[i].val];
    }
    assert ShownSettings(settings)[..|settings|] == ShownSettings(settings);
  }

  /** The curve nodes in order; a missing one drops the whole curve. */
  method CollectCurve(env: Env, m: Machine) returns (curve: seq<string>)
    ensures curve == if |m.curve| < POINTS then [] else ShowPairs(ShownCurve(env, m.curve[..POINTS]))
  {
    curve := [];
    var i := 0;
    while i < POINTS
      invariant 0 <= i <= POINTS && i <= |m.curve| && |curve| == i
      invariant forall j | 0 <= j < i :: curve[j] == ShowPair((m.curve[j].temp as int, ShownPwm(env, m.curve[j])))
    {
      if i >= |m.curve| {
        return [];
      }
      curve := curve + [Show(m.curve[i].temp) + ":" + Show(ShownPwm(env, m.curve[i]))];
      i := i + 1;
    }
  }

  // ---- the replay ----

  /** The hardware and the script's exit code. */
  datatype State = State(m: Machine, rc: int)

  function Put(env: Env, st: State, node: Node, value: string, essential: bool): State
  {
    var a := Written(env, st.m, node, value + "\n");
    State(a.m, if a.ok || !essential then st.rc else 1)
  }

  /** One pass of the curve loop; the hysteresis it also writes is not modelled. */
  function PutPoint(env: Env, st: State, i: nat, pair: string): State
  {
    Put(env, Put(env, st, TempNode(i), BeforeFirstColon(pair), true), PwmNode(i), AfterLastColon(pair), true)
  }

  function PointPutter(env: Env): (State, nat, string) -> State
  {
    (st: State, i: nat, pair: string) => PutPoint(env, st, i, pair)
  }

  function CurvePrepared(env: Env, st: State): State
  {
    var st1 := if st.m.mode != CUSTOM then Put(env, st, ModeNode, "255", true) else st;
    Put(env, st1, FullspeedNode, "0", false)
  }

  function CurveApplied(env: Env, st: State, spec: string): State
  {
    Downward(PointPutter(env), CurvePrepared(env, st), Pairs(spec), 0)
  }

  datatype Key = KMode | KFullspeed | KPl1 | KPl2 | KTau | KFwPl1 | KFwPl2 | KCoupling | KCurve | KOther

  function KeyOf(key: string): Key
  {
    if key == "POWERMODE" then KMode
    else if key == "PL1_UW" then KPl1
    else if key == "PL2_UW" then KPl2
    else if key == "TAU_US" then KTau
    else if key == "FW_PL1" then KFwPl1
    else if key == "FW_PL2" then KFwPl2
    else if key == "CURVE_PWM" then KCurve
    else if key == "FAN_FULLSPEED" then KFullspeed
    else if key == "PL_COUPLING" then KCoupling
    else KOther
  }

  function Dispatched(env: Env, st: State, key: string, val: string): State
  {
    if key == "" || key[0] == '#' then st
    else
      match KeyOf(key)
      case KMode => Put(env, st, ModeNode, val, true)
      case KPl1 => Put(env, st, Pl1Node, val, true)
      case KPl2 => Put(env, st, Pl2Node, val, true)
      case KTau => Put(env, st, TauNode, val, true)
      case KFwPl1 => Put(env, st, FwPl1Node, val, false)
      case KFwPl2 => Put(env, st, FwPl2Node, val, false)
      case KCurve => CurveApplied(env, st, val)
      case KFullspeed => Put(env, st, FullspeedNode, val, false)
      case KCoupling => Put(env, st, CouplingNode, val, false)
      case KOther => st
  }

  function Replayed(env: Env, st: State, lines: seq<string>): State
    decreases |lines|
  {
    if lines == [] then st
    else
      var (key, val) := KeyValue(lines[0]);
      Replayed(env, Dispatched(env, st, key, val), lines[1..])
  }

  class BootScript {
    const env: Env
    var m: Machine
    var rc: int

    function Value(): State
      reads this
    {
      State(m, rc)
    }

    constructor (env: Env, m: Machine)
      ensures this.env == env && Value() == State(m, 0)
    {
      this.env, this.m, rc := env, m, 0;
    }

    /** `put ... || rc=1` when essential, `put ... || true` otherwise. */
    method PutNode(node: Node, value: string, essential: bool)
      modifies this
      ensures Value() == Put(env, old(Value()), node, value, essential)
    {
      var a := Written(env, m, node, value + "\n");
      m := a.m;
      if !a.ok && essential {
        rc := 1;
      }
    }

    method ApplyCurvePwm(spec: string)
      modifies this
      ensures Value() == CurveApplied(env, old(Value()), spec)
    {
      PrepareCurve();
      var pairs := Pairs(spec);
      ghost var step, start := PointPutter(env), Value();
      var i := |pairs|;
      while i > 0
        invariant 0 <= i <= |pairs|
        invariant Value() == Downward(step, start, pairs, i)
      {
        i := i - 1;
        NextDown(step, start, pairs, i, Value());
        ApplyPoint(i, pairs[i]);
      }
    }

    /** Custom mode, and nothing that overrides the curve. */
    method PrepareCurve()
      modifies this
      ensures Value() == CurvePrepared(env, old(Value()))
    {
      if m.mode != CUSTOM {
        PutNode(ModeNode, "255", true);
      }
      PutNode(FullspeedNode, "0", false);
    }

    method ApplyPoint(i: nat, pair: string)
      modifies this
      ensures Value() == PointPutter(env)(old(Value()), i, pair)
    {
      PutNode(TempNode(i), BeforeFirstColon(pair), true);
      PutNode(PwmNode(i), AfterLastColon(pair), true);
    }

    method ApplyBootConf(text: string)
      modifies this
      ensures Value() == Replayed(env, old(Value()), Lines(text))
    {
      var lines := Lines(text);
      var i := 0;
      while i < |lines|
        invariant 0 <= i <= |lines|
        invariant Replayed(env, Value(), lines[i..]) == Replayed(env, old(Value()), lines)
      {
        var (key, val) := KeyValue(lines[i]);
        i := i + 1;
        if key == "" || key[0] == '#' {
          continue;
        }
        match KeyOf(key) {
          case KMode => PutNode(ModeNode, val, true);
          case KPl1 => PutNode(Pl1Node, val, true);
          case KPl2 => PutNode(Pl2Node, val, true);
          case KTau => PutNode(TauNode, val, true);
          case KFwPl1 => PutNode(FwPl1Node, val, false);
          case KFwPl2 => PutNode(FwPl2Node, val, false);
          case KCurve => ApplyCurvePwm(val);
          case KFullspeed => PutNode(FullspeedNode, val, false);
          case KCoupling => PutNode(CouplingNode, val, false);
          case KOther =>
        }
      }
    }
  }
}
