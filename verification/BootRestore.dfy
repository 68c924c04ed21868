/** What a replayed snapshot restores: exactly which saved states come back, from any
    state the machine boots in. */
module BootRestore {
  import opened MachineInts
  import opened SpeedCodec
  import opened CapData
  import opened PowerLimits
  import opened BootText
  import opened Descending
  import opened BootReplay

  // ---- the text is transparent ----

  function DispatchedAll(env: Env, st: State, ss: seq<Setting>): State
    decreases |ss|
  {
    if ss == [] then st else DispatchedAll(env, Dispatched(env, st, ss[0].key, ss[0].val), ss[1..])
  }

  ghost predicate Clean(ss: seq<Setting>)
  {
    forall s | s in ss :: '=' !in s.key && '\n' !in s.key && '\n' !in s.val
  }

  lemma {:induction false} ReplayIsDispatch(env: Env, st: State, ss: seq<Setting>)
    requires Clean(ss)
    ensures Replayed(env, st, ShownSettings(ss)) == DispatchedAll(env, st, ss)
    decreases |ss|
  {
    if ss != [] {
      assert ss[0] in ss;
      assert forall s | s in ss[1..] :: s in ss;
      assert ShownSettings(ss)[1..] == ShownSettings(ss[1..]);
      CutAt(ss[0].key, '=', ss[0].val);
      ReplayIsDispatch(env, Dispatched(env, st, ss[0].key, ss[0].val), ss[1..]);
    }
  }

  ghost predicate Comment(line: string)
  {
    line != "" && line[0] == '#' && '=' !in line && '\n' !in line
  }

  lemma CommentIsSkipped(env: Env, st: State, line: string, lines: seq<string>)
    requires Comment(line)
    ensures Replayed(env, st, [line] + lines) == Replayed(env, st, lines)
  {
    CutAt(line, '=', "");
    assert ([line] + lines)[1..] == lines;
  }

  lemma WrittenByIsComment()
    ensures Comment(WRITTEN_BY)
  {
    assert WRITTEN_BY[0] == '#';
  }

  lemma ReplayedByIsComment()
    ensures Comment(REPLAYED_BY)
  {
    assert REPLAYED_BY[0] == '#';
  }

  lemma HeadersAreSkipped(env: Env, st: State, h1: string, h2: string, lines: seq<string>)
    requires Comment(h1) && Comment(h2)
    ensures Replayed(env, st, [h1, h2] + lines) == Replayed(env, st, lines)
  {
    assert [h1, h2] + lines == [h1] + ([h2] + lines);
    CommentIsSkipped(env, st, h1, [h2] + lines);
    CommentIsSkipped(env, st, h2, lines);
  }

  lemma HeaderIsSkipped(env: Env, st: State, lines: seq<string>)
    ensures Replayed(env, st, HEADER + lines) == Replayed(env, st, lines)
  {
    WrittenByIsComment();
    ReplayedByIsComment();
    HeadersAreSkipped(env, st, WRITTEN_BY, REPLAYED_BY, lines);
  }

  lemma {:induction false} JoinHasNo(parts: seq<string>, sep: char, c: char)
    requires c != sep && forall p | p in parts :: c !in p
    ensures c !in Join(parts, sep)
    decreases |parts|
  {
    if parts != [] {
      assert parts[0] in parts;
      assert forall p | p in parts[1..] :: p in parts;
      if |parts| > 1 { JoinHasNo(parts[1..], sep, c); }
    }
  }

  lemma ShownCurveIsOneLine(ps: seq<Pair>)
    ensures '\n' !in ShowCurve(ps)
  {
    var parts := ShowPairs(ps);
    forall s | s in parts
      ensures '\n' !in s
    {
      var i :| 0 <= i < |parts| && parts[i] == s;
      ShowHasNoSeparator(ps[i].0, '\n');
      ShowHasNoSeparator(ps[i].1, '\n');
    }
    JoinHasNo(parts, ',', '\n');
  }

  ghost predicate CleanKey(key: string) { '=' !in key && '\n' !in key }

  lemma KeysAreClean()
    ensures CleanKey("POWERMODE") && CleanKey("FAN_FULLSPEED")
    ensures CleanKey("PL1_UW") && CleanKey("PL2_UW") && CleanKey("TAU_US")
    ensures CleanKey("FW_PL1") && CleanKey("FW_PL2") && CleanKey("PL_COUPLING")
    ensures CleanKey("CURVE_PWM") && CleanKey("FAN_MAX")
  {
  }

  lemma NumberIsClean(key: string, i: int)
    requires CleanKey(key)
    ensures Clean([Setting(key, Show(i))])
  {
    ShowHasNoSeparator(i, '\n');
  }

  lemma CleanAppend(ss: seq<Setting>, tt: seq<Setting>)
    requires Clean(ss) && Clean(tt)
    ensures Clean(ss + tt)
  {
  }

  lemma LimitSettingsAreClean(m: Machine)
    ensures Clean(LimitSettings(m))
  {
    KeysAreClean();
    RaplSettingsAreClean(m.rapl);
    FirmwareSettingsAreClean(m.firmware);
    NumberIsClean("POWERMODE", m.mode);
    CleanAppend([Setting("POWERMODE", Show(m.mode))], [Setting("FAN_FULLSPEED", ShowBool(m.fullspeed))]);
    CleanAppend(ModeSettings(m), RaplSettings(m.rapl));
    CleanAppend(ModeSettings(m) + RaplSettings(m.rapl), FirmwareSettings(m.firmware));
    CleanAppend(ModeSettings(m) + RaplSettings(m.rapl) + FirmwareSettings(m.firmware),
                [Setting("PL_COUPLING", ShowBool(m.coupling))]);
  }

  lemma RaplSettingsAreClean(r: Rapl)
    ensures Clean(RaplSettings(r))
  {
    KeysAreClean();
    NumberIsClean("PL1_UW", r.pl1);
    NumberIsClean("PL2_UW", r.pl2);
    NumberIsClean("TAU_US", r.tau);
    CleanAppend([Setting("PL1_UW", Show(r.pl1))], [Setting("PL2_UW", Show(r.pl2))]);
    CleanAppend([Setting("PL1_UW", Show(r.pl1)), Setting("PL2_UW", Show(r.pl2))], [Setting("TAU_US", Show(r.tau))]);
  }

  lemma FirmwareSettingsAreClean(l: Limits)
    ensures Clean(FirmwareSettings(l))
  {
    KeysAreClean();
    NumberIsClean("FW_PL1", l.pl1);
    NumberIsClean("FW_PL2", l.pl2);
    CleanAppend([Setting("FW_PL1", Show(l.pl1))], [Setting("FW_PL2", Show(l.pl2))]);
  }

  lemma SettingsAreClean(env: Env, m: Machine)
    ensures Clean(Settings(env, m))
  {
    LimitSettingsAreClean(m);
    ShowHasNoSeparator(EffectiveMaxRpm(env.maxRpm), '\n');
    KeysAreClean();
    if |m.curve| >= POINTS {
      ShownCurveIsOneLine(ShownCurve(env, m.curve[..POINTS]));
    }
  }

  lemma SnapshotLinesAreLines(env: Env, m: Machine)
    ensures forall l | l in SnapshotLines(env, m) :: '\n' !in l
  {
    SettingsAreClean(env, m);
    ShownSettingsAreLines(Settings(env, m));
    WrittenByIsComment();
    ReplayedByIsComment();
  }

  lemma ShownSettingsAreLines(ss: seq<Setting>)
    requires Clean(ss)
    ensures forall l | l in ShownSettings(ss) :: '\n' !in l
  {
    forall i | 0 <= i < |ss|
      ensures '\n' !in ShownSettings(ss)[i]
    {
      assert ss[i] in ss;
    }
  }

  /** Printing a snapshot to a file and reading the file back dispatches exactly its
      settings, in order. */
  lemma FileReplaysSettings(env: Env, saved: Machine, st: State)
    ensures Replayed(env, st, Lines(File(SnapshotLines(env, saved)))) == DispatchedAll(env, st, Settings(env, saved))
  {
    SnapshotLinesAreLines(env, saved);
    FileLines(SnapshotLines(env, saved));
    HeaderIsSkipped(env, st, ShownSettings(Settings(env, saved)));
    SettingsAreClean(env, saved);
    ReplayIsDispatch(env, st, Settings(env, saved));
  }

  /** Snapshots that read the same hold the same firmware limits. */
  lemma SnapshotTellsLimits(env: Env, m: Machine, n: Machine)
    requires File(SnapshotLines(env, m)) == File(SnapshotLines(env, n))
    ensures m.firmware == n.firmware
  {
    SnapshotLinesAreLines(env, m);
    SnapshotLinesAreLines(env, n);
    FileLines(SnapshotLines(env, m));
    FileLines(SnapshotLines(env, n));
    LimitLines(env, m);
    LimitLines(env, n);
    ShownTells("FW_PL1=", m.firmware.pl1, n.firmware.pl1);
    ShownTells("FW_PL2=", m.firmware.pl2, n.firmware.pl2);
  }

  lemma LimitLines(env: Env, m: Machine)
    ensures |SnapshotLines(env, m)| > 8
    ensures SnapshotLines(env, m)[7] == "FW_PL1=" + Show(m.firmware.pl1)
    ensures SnapshotLines(env, m)[8] == "FW_PL2=" + Show(m.firmware.pl2)
  {
    var ss := Settings(env, m);
    assert ss[5] == FirmwareSettings(m.firmware)[0] && ss[6] == FirmwareSettings(m.firmware)[1];
    assert SnapshotLines(env, m)[7] == ss[5].key + "=" + ss[5].val;
    assert SnapshotLines(env, m)[8] == ss[6].key + "=" + ss[6].val;
  }

  lemma ShownTells(prefix: string, i: i32, j: i32)
    ensures prefix + Show(i) == prefix + Show(j) ==> i == j
  {
    if prefix + Show(i) == prefix + Show(j) {
      assert Show(i) == (prefix + Show(i))[|prefix|..] == (prefix + Show(j))[|prefix|..] == Show(j);
      ShownIsParsed(i, 10);
      ShownIsParsed(j, 10);
    }
  }

  // ---- what each setting does ----

  lemma KeysAreKnown()
    ensures KeyOf("POWERMODE") == KMode && KeyOf("FAN_FULLSPEED") == KFullspeed
    ensures KeyOf("PL1_UW") == KPl1 && KeyOf("PL2_UW") == KPl2 && KeyOf("TAU_US") == KTau
    ensures KeyOf("FW_PL1") == KFwPl1 && KeyOf("FW_PL2") == KFwPl2
    ensures KeyOf("PL_COUPLING") == KCoupling && KeyOf("CURVE_PWM") == KCurve && KeyOf("FAN_MAX") == KOther
  {
    assert "PL2_UW"[2] == '2' && "PL1_UW"[2] == '1' && "TAU_US"[0] == 'T' && "FW_PL1"[0] == 'F';
    assert "FW_PL2"[5] == '2' && "FW_PL1"[5] == '1' && "FAN_MAX"[0] == 'F' && "CURVE_PWM"[0] == 'C';
    assert "POWERMODE"[0] == 'P' && "FW_PL2"[0] == 'F';
  }

  lemma ShownIsUint(n: nat)
    requires n < TWO_32
    ensures Kstrtouint(Show(n) + "\n") == Some(n)
  {
    DigitsHaveNoSign(n);
    DigitsAreUnsigned(n, 0);
    NewlineIsDropped(Show(n));
  }

  lemma ShownBool(b: bool)
    ensures Kstrtouint(ShowBool(b) + "\n") == Some(if b then 1 else 0)
    ensures Kstrtoint(ShowBool(b) + "\n", 0) == Some(if b then 1 else 0)
  {
    assert Show(0) == "0" && Show(1) == "1";
    ShownIsUint(if b then 1 else 0);
    ShownIsParsed(if b then 1 else 0, 0);
  }

  lemma ModeIsPut(env: Env, st: State, mode: int)
    requires IsMode(mode)
    ensures Put(env, st, ModeNode, Show(mode), true) == st.(m := InMode(env, st.m, mode).(known := mode))
    ensures Show(255) == "255"
  {
    ShownIsUint(mode);
    assert Digits(255) == Digits(25) + "5" && Digits(25) == Digits(2) + "5" && Digits(2) == "2";
  }

  lemma FullspeedIsPut(env: Env, st: State, b: bool)
    ensures Put(env, st, FullspeedNode, ShowBool(b), false)
         == if b && st.m.mode != CUSTOM then st else st.(m := st.m.(fullspeed := b))
  {
    ShownBool(b);
  }

  function RaplWith(r: Rapl, node: Node, n: nat): Rapl
  {
    match node
    case Pl1Node => r.(pl1 := n)
    case Pl2Node => r.(pl2 := n)
    case TauNode => r.(tau := n)
    case _ => r
  }

  lemma RaplLineIsPut(env: Env, st: State, node: Node, n: nat)
    requires node in {Pl1Node, Pl2Node, TauNode} && n < TWO_32 * TWO_32
    ensures Put(env, st, node, Show(n), true)
         == st.(m := st.m.(rapl := RaplWith(st.m.rapl, node, n)))
  {
    ShownIsParsedU64(n);
  }

  function FirmwareAfter(l: Limits, coupled: bool, s: PowerLimits.Store, limit: Option<i32>): Limits
  {
    match limit
    case None => l
    case Some(v) => After(l, s, coupled, v, ALL_SUCCEED)
  }

  /** The firmware limits after FW_PL1 and FW_PL2, in the mode the driver then knows. */
  function FirmwareReplayed(env: Env, mode: int, l: Limits, coupled: bool, saved: Limits): Limits
  {
    var l1 := FirmwareAfter(l, coupled, Long(saved.pl1), Limit(TablesIn(env, mode), CPU_LONG_TERM, saved.pl1));
    FirmwareAfter(l1, coupled, Short(saved.pl2), Limit(TablesIn(env, mode), CPU_SHORT_TERM, saved.pl2))
  }

  lemma FwPl1IsPut(env: Env, st: State, pl1: i32)
    ensures Put(env, st, FwPl1Node, Show(pl1), false)
         == st.(m := st.m.(firmware := FirmwareAfter(st.m.firmware, st.m.coupling, Long(pl1),
                                                     Limit(TablesIn(env, st.m.known), CPU_LONG_TERM, pl1))))
  {
    ShownIsParsed(pl1, 10);
  }

  lemma FwPl2IsPut(env: Env, st: State, pl2: i32)
    ensures Put(env, st, FwPl2Node, Show(pl2), false)
         == st.(m := st.m.(firmware := FirmwareAfter(st.m.firmware, st.m.coupling, Short(pl2),
                                                     Limit(TablesIn(env, st.m.known), CPU_SHORT_TERM, pl2))))
  {
    ShownIsParsed(pl2, 10);
  }

  lemma CouplingIsPut(env: Env, st: State, b: bool)
    ensures Put(env, st, CouplingNode, ShowBool(b), false) == st.(m := st.m.(coupling := b))
  {
    ShownBool(b);
  }

  /** A point of the table after its two writes: a refused value leaves what was there. */
  function PointAfter(env: Env, was: Trip, p: Pair): Trip
  {
    Trip(if 0 <= p.0 <= 127 then p.0 else was.temp,
         match SetSpeed(RpmHundred, env.maxRpm, p.1) case Some(s) => s case None => was.speed)
  }

  ghost predicate Small(ps: seq<Pair>)
  {
    forall p | p in ps :: -TWO_31 <= p.0 < TWO_31 && -TWO_31 <= p.1 < TWO_31
  }

  lemma TempIsPut(env: Env, st: State, i: nat, temp: i32)
    requires st.m.mode == CUSTOM && i < |st.m.curve|
    ensures var was := st.m.curve[i];
            Put(env, st, TempNode(i), Show(temp), true).m
            == st.m.(curve := st.m.curve[i := was.(temp := if 0 <= temp <= 127 then temp else was.temp)])
  {
    ShownIsParsed(temp, 0);
    assert st.m.curve[i := st.m.curve[i]] == st.m.curve;
  }

  lemma PwmIsPut(env: Env, st: State, i: nat, pwm: i32)
    requires st.m.mode == CUSTOM && i < |st.m.curve|
    ensures var was := st.m.curve[i];
            Put(env, st, PwmNode(i), Show(pwm), true).m
            == st.m.(curve := st.m.curve[i := PointAfter(env, was, (was.temp, pwm)).(temp := was.temp)])
  {
    ShownIsParsed(pwm, 0);
    assert st.m.curve[i := st.m.curve[i]] == st.m.curve;
  }

  lemma PointIsPut(env: Env, st: State, i: nat, p: Pair)
    requires st.m.mode == CUSTOM && i < |st.m.curve|
    requires -TWO_31 <= p.0 < TWO_31 && -TWO_31 <= p.1 < TWO_31
    ensures PutPoint(env, st, i, ShowPair(p)).m
         == st.m.(curve := st.m.curve[i := PointAfter(env, st.m.curve[i], p)])
  {
    PairFields(p);
    TempIsPut(env, st, i, p.0);
    PwmIsPut(env, Put(env, st, TempNode(i), Show(p.0), true), i, p.1);
  }

  /** A table whose points from k up have been overwritten. */
  function Overwritten(env: Env, was: seq<Trip>, ps: seq<Pair>, k: nat): (r: seq<Trip>)
    requires k <= |ps| <= |was|
    ensures |r| == |was|
    ensures forall i | 0 <= i < |was| :: r[i] == if k <= i < |ps| then PointAfter(env, was[i], ps[i]) else was[i]
  {
    was[..k] + seq(|ps| - k, i requires 0 <= i < |ps| - k => PointAfter(env, was[k + i], ps[k + i])) + was[|ps|..]
  }

  lemma OverwrittenStep(env: Env, was: seq<Trip>, ps: seq<Pair>, k: nat)
    requires k < |ps| <= |was|
    ensures Overwritten(env, was, ps, k + 1)[k := PointAfter(env, was[k], ps[k])] == Overwritten(env, was, ps, k)
  {
  }

  lemma NextPointIsPut(env: Env, st: State, st1: State, ps: seq<Pair>, k: nat)
    requires st.m.mode == CUSTOM && k < |ps| <= |st.m.curve| && Small(ps)
    requires st1.m == st.m.(curve := Overwritten(env, st.m.curve, ps, k + 1))
    ensures PutPoint(env, st1, k, ShowPairs(ps)[k]).m == st.m.(curve := Overwritten(env, st.m.curve, ps, k))
  {
    assert ps[k] in ps;
    OverwrittenStep(env, st.m.curve, ps, k);
    PointIsPut(env, st1, k, ps[k]);
  }

  /** The points are the printed ones, those beyond them untouched. */
  lemma PointsArePut(env: Env, st: State, ps: seq<Pair>)
    requires st.m.mode == CUSTOM && |ps| <= |st.m.curve| && Small(ps)
    ensures Downward(PointPutter(env), st, ShowPairs(ps), 0).m == st.m.(curve := Overwritten(env, st.m.curve, ps, 0))
  {
    ghost var inv := (st1: State, k: nat) => k <= |ps| && st1.m == st.m.(curve := Overwritten(env, st.m.curve, ps, k));
    NoneOverwritten(env, st.m.curve, ps);
    forall st1: State, i: nat | i < |ps| && inv(st1, i + 1)
      ensures inv(PointPutter(env)(st1, i, ShowPairs(ps)[i]), i)
    {
      NextPointIsPut(env, st, st1, ps, i);
    }
    DownwardKeeps(PointPutter(env), st, ShowPairs(ps), 0, inv);
  }

  lemma NoneOverwritten(env: Env, was: seq<Trip>, ps: seq<Pair>)
    requires |ps| <= |was|
    ensures Overwritten(env, was, ps, |ps|) == was
  {
  }

  // ---- the whole replay ----

  /** States a machine of this kind can be in: a mode of the firmware, RAPL values that
      fit their files, all ten curve nodes. */
  predicate Plausible(m: Machine)
  {
    && IsMode(m.mode) && |m.curve| == POINTS
    && m.rapl.pl1 < TWO_32 * TWO_32 && m.rapl.pl2 < TWO_32 * TWO_32 && m.rapl.tau < TWO_32 * TWO_32
  }

  function ReplayOf(env: Env, saved: Machine, start: State): State
  {
    Replayed(env, start, Lines(File(SnapshotLines(env, saved))))
  }

  function ModeReplayed(env: Env, saved: Machine, st: State): State
  {
    var m := InMode(env, st.m, saved.mode).(known := saved.mode);
    st.(m := if saved.fullspeed && saved.mode != CUSTOM then m else m.(fullspeed := saved.fullspeed))
  }

  /** After every line but the curve. */
  function LimitsReplayed(env: Env, saved: Machine, st: State): State
  {
    var st1 := ModeReplayed(env, saved, st);
    st1.(m := st1.m.(rapl := saved.rapl, coupling := saved.coupling,
                     firmware := FirmwareReplayed(env, saved.mode, st.m.firmware, st.m.coupling, saved.firmware)))
  }

  lemma Peel(env: Env, st: State, s: Setting, rest: seq<Setting>)
    ensures DispatchedAll(env, st, [s] + rest) == DispatchedAll(env, Dispatched(env, st, s.key, s.val), rest)
  {
    assert ([s] + rest)[0] == s && ([s] + rest)[1..] == rest;
  }

  lemma PeelTwo(env: Env, st: State, s1: Setting, s2: Setting, rest: seq<Setting>)
    ensures DispatchedAll(env, st, [s1, s2] + rest)
         == DispatchedAll(env, Dispatched(env, Dispatched(env, st, s1.key, s1.val), s2.key, s2.val), rest)
  {
    assert [s1, s2] + rest == [s1] + ([s2] + rest);
    Peel(env, st, s1, [s2] + rest);
    Peel(env, Dispatched(env, st, s1.key, s1.val), s2, rest);
  }

  lemma ModeSettingsReplay(env: Env, saved: Machine, st: State, rest: seq<Setting>)
    requires IsMode(saved.mode)
    ensures DispatchedAll(env, st, ModeSettings(saved) + rest) == DispatchedAll(env, ModeReplayed(env, saved, st), rest)
  {
    KeysAreKnown();
    PeelTwo(env, st, Setting("POWERMODE", Show(saved.mode)), Setting("FAN_FULLSPEED", ShowBool(saved.fullspeed)), rest);
    ModeIsPut(env, st, saved.mode);
    FullspeedIsPut(env, st.(m := InMode(env, st.m, saved.mode).(known := saved.mode)), saved.fullspeed);
  }

  lemma RaplSettingsReplay(env: Env, r: Rapl, st: State, rest: seq<Setting>)
    requires r.pl1 < TWO_32 * TWO_32 && r.pl2 < TWO_32 * TWO_32 && r.tau < TWO_32 * TWO_32
    ensures DispatchedAll(env, st, RaplSettings(r) + rest) == DispatchedAll(env, st.(m := st.m.(rapl := r)), rest)
  {
    var s1, s2, s3 := Setting("PL1_UW", Show(r.pl1)), Setting("PL2_UW", Show(r.pl2)), Setting("TAU_US", Show(r.tau));
    var st1 := st.(m := st.m.(rapl := st.m.rapl.(pl1 := r.pl1)));
    var st2 := st1.(m := st1.m.(rapl := st1.m.rapl.(pl2 := r.pl2)));
    assert RaplSettings(r) + rest == [s1] + ([s2] + ([s3] + rest));
    RaplLineReplays(env, st, s1, Pl1Node, r.pl1, [s2] + ([s3] + rest));
    RaplLineReplays(env, st1, s2, Pl2Node, r.pl2, [s3] + rest);
    RaplLineReplays(env, st2, s3, TauNode, r.tau, rest);
  }

  lemma RaplLineReplays(env: Env, st: State, s: Setting, node: Node, n: nat, rest: seq<Setting>)
    requires n < TWO_32 * TWO_32 && s.val == Show(n)
    requires (s.key, node) in {("PL1_UW", Pl1Node), ("PL2_UW", Pl2Node), ("TAU_US", TauNode)}
    ensures DispatchedAll(env, st, [s] + rest)
         == DispatchedAll(env, st.(m := st.m.(rapl := RaplWith(st.m.rapl, node, n))), rest)
  {
    KeysAreKnown();
    Peel(env, st, s, rest);
    RaplLineIsPut(env, st, node, n);
  }

  lemma FirmwareSettingsReplay(env: Env, l: Limits, st: State, rest: seq<Setting>)
    ensures DispatchedAll(env, st, FirmwareSettings(l) + rest)
         == DispatchedAll(env, st.(m := st.m.(
              firmware := FirmwareReplayed(env, st.m.known, st.m.firmware, st.m.coupling, l))), rest)
  {
    KeysAreKnown();
    var s1, s2 := Setting("FW_PL1", Show(l.pl1)), Setting("FW_PL2", Show(l.pl2));
    PeelTwo(env, st, s1, s2, rest);
    FwPl1IsPut(env, st, l.pl1);
    FwPl2IsPut(env, Put(env, st, FwPl1Node, Show(l.pl1), false), l.pl2);
  }

  lemma CouplingSettingReplays(env: Env, b: bool, st: State, rest: seq<Setting>)
    ensures DispatchedAll(env, st, [Setting("PL_COUPLING", ShowBool(b))] + rest)
         == DispatchedAll(env, st.(m := st.m.(coupling := b)), rest)
  {
    KeysAreKnown();
    Peel(env, st, Setting("PL_COUPLING", ShowBool(b)), rest);
    CouplingIsPut(env, st, b);
  }

  lemma LastLimitsReplay(env: Env, l: Limits, b: bool, st: State, rest: seq<Setting>)
    ensures DispatchedAll(env, st, FirmwareSettings(l) + ([Setting("PL_COUPLING", ShowBool(b))] + rest))
         == DispatchedAll(env, st.(m := st.m.(coupling := b,
              firmware := FirmwareReplayed(env, st.m.known, st.m.firmware, st.m.coupling, l))), rest)
  {
    var l' := FirmwareReplayed(env, st.m.known, st.m.firmware, st.m.coupling, l);
    FirmwareSettingsReplay(env, l, st, [Setting("PL_COUPLING", ShowBool(b))] + rest);
    CouplingSettingReplays(env, b, st.(m := st.m.(firmware := l')), rest);
  }

  lemma LimitSettingsReplay(env: Env, saved: Machine, st: State, rest: seq<Setting>)
    requires Plausible(saved)
    ensures DispatchedAll(env, st, LimitSettings(saved) + rest)
         == DispatchedAll(env, LimitsReplayed(env, saved, st), rest)
  {
    var r2 := FirmwareSettings(saved.firmware) + ([Setting("PL_COUPLING", ShowBool(saved.coupling))] + rest);
    var r1 := RaplSettings(saved.rapl) + r2;
    assert LimitSettings(saved) + rest == ModeSettings(saved) + r1;
    var st1 := ModeReplayed(env, saved, st);
    ModeSettingsReplay(env, saved, st, r1);
    RaplSettingsReplay(env, saved.rapl, st1, r2);
    LastLimitsReplay(env, saved.firmware, saved.coupling, st1.(m := st1.m.(rapl := saved.rapl)), rest);
  }

  /** The curve line always ends in custom mode with full speed off, the table loaded
      for that mode overwritten point by point. */
  function CurveReplayed(env: Env, saved: Machine, m: Machine): Machine
    requires |saved.curve| == POINTS && |m.curve| == POINTS
  {
    var base := if m.mode == CUSTOM then m else InMode(env, m, CUSTOM).(known := CUSTOM);
    base.(fullspeed := false, curve := Overwritten(env, base.curve, ShownCurve(env, saved.curve), 0))
  }

  lemma PreparedIsCustom(env: Env, st: State)
    ensures CurvePrepared(env, st).m
         == (if st.m.mode == CUSTOM then st.m else InMode(env, st.m, CUSTOM).(known := CUSTOM)).(fullspeed := false)
  {
    ModeIsPut(env, st, 255);
    var st1 := if st.m.mode != CUSTOM then Put(env, st, ModeNode, "255", true) else st;
    FullspeedIsPut(env, st1, false);
  }

  lemma ShownCurveIsSmall(env: Env, curve: seq<Trip>)
    ensures Small(ShownCurve(env, curve))
  {
    var ps := ShownCurve(env, curve);
    forall p | p in ps
      ensures -TWO_31 <= p.0 < TWO_31 && -TWO_31 <= p.1 < TWO_31
    {
      var i :| 0 <= i < |ps| && ps[i] == p;
      ShownPwmIsSmall(env, curve[i]);
    }
  }

  lemma CurveLineReplays(env: Env, saved: Machine, st: State)
    requires |saved.curve| == POINTS && |st.m.curve| == POINTS
    ensures CurveApplied(env, st, ShowCurve(ShownCurve(env, saved.curve[..POINTS]))).m
         == CurveReplayed(env, saved, st.m)
  {
    assert saved.curve[..POINTS] == saved.curve;
    var ps := ShownCurve(env, saved.curve);
    PrintedCurveParses(ps);
    PreparedIsCustom(env, st);
    ShownCurveIsSmall(env, saved.curve);
    PointsArePut(env, CurvePrepared(env, st), ps);
  }

  lemma DivAtMost(x: nat, d: int)
    requires d > 0
    ensures 0 <= x / d <= x
  {
    MulMonotone(1, d, x + 1);
    DivAdjoint(x, d, x + 1);
    DivAdjoint(x, d, 0);
  }

  lemma ShownPwmIsSmall(env: Env, t: Trip)
    ensures 0 <= ShownPwm(env, t) < TWO_31
  {
    RpmHundredIsExact(env.maxRpm, 0, t.speed);
    DivAtMost(t.speed * 25500, EffectiveMaxRpm(env.maxRpm));
  }

  lemma CurveSettingsReplay(env: Env, ps: seq<Pair>, st: State)
    ensures DispatchedAll(env, st, CurveSettings(env, ps)) == CurveApplied(env, st, ShowCurve(ps))
  {
    KeysAreKnown();
    var ss := CurveSettings(env, ps);
    PeelTwo(env, st, ss[0], ss[1], []);
    assert ss + [] == ss;
  }

  /** The machine after a replay, spelled out. */
  lemma ReplayEndsAt(env: Env, saved: Machine, start: State)
    requires Plausible(saved) && |start.m.curve| == POINTS
    ensures ReplayOf(env, saved, start).m == CurveReplayed(env, saved, LimitsReplayed(env, saved, start).m)
  {
    var ps := ShownCurve(env, saved.curve[..POINTS]);
    var st := LimitsReplayed(env, saved, start);
    FileReplaysSettings(env, saved, start);
    LimitSettingsReplay(env, saved, start, CurveSettings(env, ps));
    CurveSettingsReplay(env, ps, st);
    CurveLineReplays(env, saved, st);
  }

  /** Whatever was saved, a replay with a curve ends in custom mode with full speed off. */
  lemma ReplayEndsInCustomMode(env: Env, saved: Machine, start: State)
    requires Plausible(saved) && |start.m.curve| == POINTS
    ensures ReplayOf(env, saved, start).m.mode == CUSTOM && !ReplayOf(env, saved, start).m.fullspeed
  {
    ReplayEndsAt(env, saved, start);
  }

  function ShownPair(env: Env, t: Trip): Pair { (t.temp, ShownPwm(env, t)) }

  /** Each half of a point is accepted as shown and kept by the codec, or refused where
      the firmware's own custom table happens to agree. */
  predicate PointRestorable(env: Env, i: nat, t: Trip)
  {
    var max, own := EffectiveMaxRpm(env.maxRpm), env.table(CUSTOM, i);
    && (t.temp <= 127 || own.temp == t.temp)
    && if t.speed * 25500 < 256 * max then t.speed * 25500 % max < 25500 else own.speed == t.speed
  }

  /** That is exactly when what is shown of the point and written over the table's own
      gives the point back. */
  lemma PointComesBackIff(env: Env, i: nat, t: Trip)
    ensures PointAfter(env, env.table(CUSTOM, i), ShownPair(env, t)) == t
            <==> PointRestorable(env, i, t)
  {
    SpeedReturnsIff(env.maxRpm, t.speed);
    ShownPwmIsSmall(env, t);
  }

  /** Limits a replay puts back when it starts with this coupling. Coupled, they must be in
      order, and of equal ones PL2 may be what holds PL1 down; uncoupled, order does not
      matter. */
  predicate LimitsRestorable(env: Env, l: Limits, coupled: bool)
  {
    var c1 := Limit(TablesIn(env, CUSTOM), CPU_LONG_TERM, l.pl1);
    && Limit(TablesIn(env, CUSTOM), CPU_SHORT_TERM, l.pl2) == Some(l.pl2)
    && c1.Some?
    && (c1.value == l.pl1 || (coupled && l.pl1 == l.pl2 && l.pl1 <= c1.value))
    && (coupled ==> l.Ordered())
  }

  /** Exactly these come back whatever the firmware held. */
  lemma LimitsComeBackIff(env: Env, l: Limits, coupled: bool)
    ensures (forall was: Limits :: FirmwareReplayed(env, CUSTOM, was, coupled, l) == l)
            <==> LimitsRestorable(env, l, coupled)
  {
    if !LimitsRestorable(env, l, coupled) { var was := LimitsLost(env, l, coupled); }
  }

  /** Limits the firmware may hold so that these do not come back: a refused request
      leaves something of them. */
  lemma LimitsLost(env: Env, l: Limits, coupled: bool) returns (was: Limits)
    requires !LimitsRestorable(env, l, coupled)
    ensures FirmwareReplayed(env, CUSTOM, was, coupled, l) != l
  {
    var low, high := -TWO_31, TWO_31 - 1;
    was := Limits(if l.pl1 == low then high else low, if l.pl2 == high then low else high);
  }

  /** A saved state a replay restores when the machine boots with this coupling. */
  predicate RestorableFrom(env: Env, saved: Machine, coupled: bool)
    requires |saved.curve| == POINTS
  {
    && saved.mode == CUSTOM && !saved.fullspeed && LimitsRestorable(env, saved.firmware, coupled)
    && forall i: nat | i < POINTS :: PointRestorable(env, i, saved.curve[i])
  }

  predicate Same(m: Machine, n: Machine)
  {
    && m.mode == n.mode && m.fullspeed == n.fullspeed && m.rapl == n.rapl
    && m.firmware == n.firmware && m.coupling == n.coupling && m.curve == n.curve
  }

  ghost predicate RestoredFrom(env: Env, saved: Machine, coupled: bool)
  {
    forall start: State | |start.m.curve| == POINTS && start.m.coupling == coupled ::
      Same(ReplayOf(env, saved, start).m, saved)
  }

  /** The driver sets the coupling at probe. From every state a machine with that coupling
      may boot in, replay restores a saved state exactly when it was restorable. */
  lemma ReplayRestoresFromIff(env: Env, saved: Machine, coupled: bool)
    requires Plausible(saved)
    ensures RestoredFrom(env, saved, coupled) <==> RestorableFrom(env, saved, coupled)
  {
    if RestorableFrom(env, saved, coupled) {
      LimitsComeBackIff(env, saved.firmware, coupled);
      forall start: State | |start.m.curve| == POINTS && start.m.coupling == coupled
        ensures Same(ReplayOf(env, saved, start).m, saved)
      {
        RestorableIsRestored(env, saved, start);
      }
    } else if RestoredFrom(env, saved, coupled) {
      SuccessShows(env, saved, coupled, saved.firmware);
      var was := LimitsLost(env, saved.firmware, coupled);
      SuccessShows(env, saved, coupled, was);
    }
  }

  lemma RestorableIsRestored(env: Env, saved: Machine, start: State)
    requires Plausible(saved) && RestorableFrom(env, saved, start.m.coupling) && |start.m.curve| == POINTS
    ensures Same(ReplayOf(env, saved, start).m, saved)
  {
    ReplayEndsAt(env, saved, start);
    LimitsComeBackIff(env, saved.firmware, start.m.coupling);
    var m := LimitsReplayed(env, saved, start).m;
    var done := CurveReplayed(env, saved, m);
    forall i: nat | i < POINTS
      ensures done.curve[i] == saved.curve[i]
    {
      assert PointRestorable(env, i, saved.curve[i]);
      PointComesBackIff(env, i, saved.curve[i]);
    }
    assert done.curve == saved.curve;
  }

  /** The machine booted with other limits in force. */
  function Otherwise(saved: Machine, was: Limits, coupled: bool): State
  {
    State(saved.(firmware := was, coupling := coupled), 0)
  }

  /** What a state that is restored shows of itself. */
  lemma SuccessShows(env: Env, saved: Machine, coupled: bool, was: Limits)
    requires Plausible(saved) && RestoredFrom(env, saved, coupled)
    ensures saved.mode == CUSTOM && !saved.fullspeed
    ensures FirmwareReplayed(env, CUSTOM, was, coupled, saved.firmware) == saved.firmware
    ensures forall i: nat | i < POINTS :: PointRestorable(env, i, saved.curve[i])
  {
    var start := Otherwise(saved, was, coupled);
    assert Same(ReplayOf(env, saved, start).m, saved);
    ReplayEndsAt(env, saved, start);
    var done := CurveReplayed(env, saved, LimitsReplayed(env, saved, start).m);
    forall i: nat | i < POINTS
      ensures PointRestorable(env, i, saved.curve[i])
    {
      assert done.curve[i] == saved.curve[i];
      PointComesBackIff(env, i, saved.curve[i]);
    }
  }

  /** Restorable whatever the coupling at boot. */
  predicate Restorable(env: Env, saved: Machine)
    requires |saved.curve| == POINTS
  {
    && saved.mode == CUSTOM && !saved.fullspeed
    && saved.firmware.Ordered()
    && Limit(TablesIn(env, CUSTOM), CPU_LONG_TERM, saved.firmware.pl1) == Some(saved.firmware.pl1)
    && Limit(TablesIn(env, CUSTOM), CPU_SHORT_TERM, saved.firmware.pl2) == Some(saved.firmware.pl2)
    && forall i: nat | i < POINTS :: PointRestorable(env, i, saved.curve[i])
  }

  /** Replay from any state at all restores exactly the states restorable under both
      couplings. */
  lemma ReplayRestoresIff(env: Env, saved: Machine)
    requires Plausible(saved)
    ensures (forall start: State | |start.m.curve| == POINTS :: Same(ReplayOf(env, saved, start).m, saved))
            <==> Restorable(env, saved)
  {
    ReplayRestoresFromIff(env, saved, false);
    ReplayRestoresFromIff(env, saved, true);
    if RestoredFrom(env, saved, false) && RestoredFrom(env, saved, true) {
      forall start: State | |start.m.curve| == POINTS
        ensures Same(ReplayOf(env, saved, start).m, saved)
      {
        assert start.m.coupling == false || start.m.coupling == true;
      }
    }
  }

  /** The two differ: coupled, limits of 50 W each come back even where custom mode would
      answer a PL1 of 50 W with more. */
  lemma EqualLimitsHeldDown(env: Env, l: Limits)
    requires l.pl1 == l.pl2
    requires Limit(TablesIn(env, CUSTOM), CPU_SHORT_TERM, l.pl2) == Some(l.pl2)
    requires Limit(TablesIn(env, CUSTOM), CPU_LONG_TERM, l.pl1).Some?
    requires Limit(TablesIn(env, CUSTOM), CPU_LONG_TERM, l.pl1).value > l.pl1
    ensures LimitsRestorable(env, l, true) && !LimitsRestorable(env, l, false)
  {
  }

  // ---- any number of cycles ----

  /** Save, boot from starts[0], replay; save, boot from starts[1], replay; and so on. */
  function Generations(env: Env, m: Machine, starts: seq<State>): Machine
    decreases |starts|
  {
    if starts == [] then m else Generations(env, ReplayOf(env, m, starts[0]).m, starts[1..])
  }

  /** A point every save and replay keeps: an acceptable temperature and a speed the
      codec shows and takes back. */
  predicate Settled(env: Env, t: Trip) { t.temp <= 127 && SpeedReturns(env.maxRpm, t.speed) }

  /** Exactly such a point comes back whatever the table held. */
  lemma SettledIff(env: Env, t: Trip)
    ensures Settled(env, t)
            <==> forall was: Trip :: PointAfter(env, was, ShownPair(env, t)) == t
  {
    SpeedReturnsIff(env.maxRpm, t.speed);
    ShownPwmIsSmall(env, t);
    var other := Trip(if t.temp == 0 then 1 else 0, if t.speed == 0 then 1 else 0);
    if !Settled(env, t) {
      assert PointAfter(env, other, ShownPair(env, t)) != t;
    }
  }

  lemma ReplayIsPlausible(env: Env, saved: Machine, start: State)
    requires Plausible(saved) && |start.m.curve| == POINTS
    ensures Plausible(ReplayOf(env, saved, start).m)
  {
    ReplayEndsAt(env, saved, start);
  }

  /** One generation leaves the curve alone exactly when each of its points comes back. */
  lemma CurveComesBackIff(env: Env, m: Machine, start: State)
    requires Plausible(m) && |start.m.curve| == POINTS
    ensures ReplayOf(env, m, start).m.curve == m.curve
            <==> forall i: nat | i < POINTS :: PointRestorable(env, i, m.curve[i])
  {
    ReplayEndsAt(env, m, start);
    var next := ReplayOf(env, m, start).m.curve;
    forall i: nat | i < POINTS
      ensures next[i] == m.curve[i] <==> PointRestorable(env, i, m.curve[i])
    {
      PointComesBackIff(env, i, m.curve[i]);
    }
  }

  /** Over any number of generations, whatever else the machine did at each boot, a curve
      whose points come back stays as it was. */
  lemma {:induction false} CurveNeverDrifts(env: Env, m: Machine, starts: seq<State>)
    requires Plausible(m) && forall s | s in starts :: |s.m.curve| == POINTS
    requires forall i: nat | i < POINTS :: PointRestorable(env, i, m.curve[i])
    ensures Generations(env, m, starts).curve == m.curve
    decreases |starts|
  {
    if starts != [] {
      assert starts[0] in starts;
      assert forall s | s in starts[1..] :: s in starts;
      CurveComesBackIff(env, m, starts[0]);
      ReplayIsPlausible(env, m, starts[0]);
      CurveNeverDrifts(env, ReplayOf(env, m, starts[0]).m, starts[1..]);
    }
  }

  /** The boot curve cannot drift, and nothing less is enough: it stays over every number
      of generations exactly when each of its points comes back once. */
  lemma CurveNeverDriftsIff(env: Env, m: Machine)
    requires Plausible(m)
    ensures (forall starts: seq<State> | (forall s | s in starts :: |s.m.curve| == POINTS) ::
               Generations(env, m, starts).curve == m.curve)
            <==> forall i: nat | i < POINTS :: PointRestorable(env, i, m.curve[i])
  {
    if forall i: nat | i < POINTS :: PointRestorable(env, i, m.curve[i]) {
      forall starts: seq<State> | forall s | s in starts :: |s.m.curve| == POINTS
        ensures Generations(env, m, starts).curve == m.curve
      {
        CurveNeverDrifts(env, m, starts);
      }
    } else {
      var start := State(m, 0);
      CurveComesBackIff(env, m, start);
      OneGeneration(env, m, start);
    }
  }

  lemma OneGeneration(env: Env, m: Machine, start: State)
    ensures Generations(env, m, [start]) == ReplayOf(env, m, start).m
  {
    assert [start][1..] == [];
  }

  /** On a fan whose maximum is at most 25500 rpm every speed up to the maximum settles,
      so only temperatures above 127 can be lost. */
  lemma InRangePointsSettle(env: Env, t: Trip)
    requires EffectiveMaxRpm(env.maxRpm) <= 25500
    requires t.temp <= 127 && 100 * t.speed <= EffectiveMaxRpm(env.maxRpm)
    ensures Settled(env, t)
  {
    RemainderIsBelow(t.speed * 25500, EffectiveMaxRpm(env.maxRpm));
  }

  lemma RemainderIsBelow(x: nat, d: int)
    requires d > 0
    ensures x % d < d
  {
  }

  /** A settled point is restorable in every place of the table. */
  lemma SettledIsRestorable(env: Env, i: nat, t: Trip)
    requires Settled(env, t)
    ensures PointRestorable(env, i, t)
  {
  }
}
