/** The boot files line by line: what the snapshot and curve.conf literally hold, what one
    write does, and when the boot script reports failure. */
module BootLines {
  import opened MachineInts
  import opened SpeedCodec
  import opened FanRequest
  import opened PowerLimits
  import opened BootText
  import opened Descending
  import opened BootReplay
  import opened BootRestore
  import opened CurveConf

  // ---- which lines fail ----

  predicate ModeRefused(val: string)
  {
    var v := Kstrtouint(val + "\n");
    v.None? || v.value % 256 !in {1, 2, 3, 224, 255}
  }

  predicate TempRefused(text: string)
  {
    var v := Kstrtoint(text + "\n", 0);
    v.None? || !(0 <= v.value <= 127)
  }

  predicate PwmRefused(text: string)
  {
    var v := Kstrtoint(text + "\n", 0);
    v.None? || !(0 <= v.value <= 255)
  }

  /** The i-th point of a curve, on a machine with so many. */
  predicate PointRefused(points: nat, i: nat, pair: string)
  {
    i >= points || TempRefused(BeforeFirstColon(pair)) || PwmRefused(AfterLastColon(pair))
  }

  predicate SomePointRefused(points: nat, pairs: seq<string>, from: nat)
  {
    exists i :: from <= i < |pairs| && PointRefused(points, i, pairs[i])
  }

  /** A line the script must get through and does not: about its text and the number of
      points alone, not the state of the machine. */
  predicate Refused(points: nat, key: string, val: string)
  {
    || (key == "POWERMODE" && ModeRefused(val))
    || ((key == "PL1_UW" || key == "PL2_UW" || key == "TAU_US") && Kstrtou64(val + "\n").None?)
    || (key == "CURVE_PWM" && SomePointRefused(points, Pairs(val), 0))
  }

  predicate LineRefused(points: nat, line: string) { Refused(points, KeyValue(line).0, KeyValue(line).1) }

  lemma PutKeepsPoints(env: Env, st: State, node: Node, value: string, essential: bool)
    ensures |Put(env, st, node, value, essential).m.curve| == |st.m.curve|
  {
  }

  lemma PointExit(env: Env, st: State, i: nat, pair: string)
    ensures PutPoint(env, st, i, pair).rc == if PointRefused(|st.m.curve|, i, pair) then 1 else st.rc
    ensures |PutPoint(env, st, i, pair).m.curve| == |st.m.curve|
  {
    TempExit(env, st, i, BeforeFirstColon(pair));
    PwmExit(env, Put(env, st, TempNode(i), BeforeFirstColon(pair), true), i, AfterLastColon(pair));
  }

  lemma TempExit(env: Env, st: State, i: nat, temp: string)
    ensures var st' := Put(env, st, TempNode(i), temp, true);
            st'.rc == (if i >= |st.m.curve| || TempRefused(temp) then 1 else st.rc) && |st'.m.curve| == |st.m.curve|
  {
  }

  lemma PwmExit(env: Env, st: State, i: nat, pwm: string)
    ensures var st' := Put(env, st, PwmNode(i), pwm, true);
            st'.rc == (if i >= |st.m.curve| || PwmRefused(pwm) then 1 else st.rc) && |st'.m.curve| == |st.m.curve|
  {
  }

  /** Neither the mode 255 the curve needs nor full speed can fail it. */
  lemma PreparingSucceeds(env: Env, st: State)
    ensures CurvePrepared(env, st).rc == st.rc && |CurvePrepared(env, st).m.curve| == |st.m.curve|
  {
    ModeIsPut(env, st, 255);
  }

  lemma CurveExit(env: Env, st: State, spec: string)
    ensures var st' := CurveApplied(env, st, spec);
            && st'.rc == (if SomePointRefused(|st.m.curve|, Pairs(spec), 0) then 1 else st.rc)
            && |st'.m.curve| == |st.m.curve|
  {
    var n, pairs, step := |st.m.curve|, Pairs(spec), PointPutter(env);
    PreparingSucceeds(env, st);
    ghost var inv := (s: State, k: nat) =>
      |s.m.curve| == n && s.rc == if SomePointRefused(n, pairs, k) then 1 else st.rc;
    forall s: State, i: nat | i < |pairs| && inv(s, i + 1)
      ensures inv(step(s, i, pairs[i]), i)
    {
      PointExit(env, s, i, pairs[i]);
      NextRefused(n, pairs, i);
    }
    DownwardKeeps(step, CurvePrepared(env, st), pairs, 0, inv);
  }

  lemma NextRefused(points: nat, pairs: seq<string>, i: nat)
    requires i < |pairs|
    ensures SomePointRefused(points, pairs, i)
            <==> PointRefused(points, i, pairs[i]) || SomePointRefused(points, pairs, i + 1)
  {
  }

  // Each key the script knows is one word.
  lemma ModeKey(key: string)
    ensures KeyOf(key) == KMode <==> key == "POWERMODE"
  {
  }

  lemma RaplKeys(key: string)
    ensures KeyOf(key) in {KPl1, KPl2, KTau} <==> key == "PL1_UW" || key == "PL2_UW" || key == "TAU_US"
  {
  }

  lemma CurveKey(key: string)
    ensures KeyOf(key) == KCurve <==> key == "CURVE_PWM"
  {
    assert "POWERMODE"[0] == 'P' && "CURVE_PWM"[0] == 'C';
  }

  lemma KeyIsNoComment(key: string)
    requires key == "" || key[0] == '#'
    ensures KeyOf(key) !in {KMode, KPl1, KPl2, KTau, KCurve}
  {
    assert "POWERMODE"[0] == 'P' && "PL1_UW"[0] == 'P' && "PL2_UW"[0] == 'P';
    assert "TAU_US"[0] == 'T' && "CURVE_PWM"[0] == 'C';
  }

  lemma RefusedKeys(points: nat, key: string, val: string)
    ensures Refused(points, key, val) <==>
              || (KeyOf(key) == KMode && ModeRefused(val))
              || (KeyOf(key) in {KPl1, KPl2, KTau} && Kstrtou64(val + "\n").None?)
              || (KeyOf(key) == KCurve && SomePointRefused(points, Pairs(val), 0))
  {
    ModeKey(key);
    RaplKeys(key);
    CurveKey(key);
  }

  lemma LineExit(env: Env, st: State, key: string, val: string)
    ensures var st' := Dispatched(env, st, key, val);
            && st'.rc == (if Refused(|st.m.curve|, key, val) then 1 else st.rc)
            && |st'.m.curve| == |st.m.curve|
  {
    RefusedKeys(|st.m.curve|, key, val);
    if key == "" || key[0] == '#' { KeyIsNoComment(key); } else { KeyExit(env, st, key, val); }
  }

  lemma KeyExit(env: Env, st: State, key: string, val: string)
    requires key != "" && key[0] != '#'
    ensures var st', k := Dispatched(env, st, key, val), KeyOf(key);
            && st'.rc == (if || (k == KMode && ModeRefused(val))
                             || (k in {KPl1, KPl2, KTau} && Kstrtou64(val + "\n").None?)
                             || (k == KCurve && SomePointRefused(|st.m.curve|, Pairs(val), 0)) then 1 else st.rc)
            && |st'.m.curve| == |st.m.curve|
  {
    match KeyOf(key)
    case KMode => PutExit(env, st, ModeNode, val);
    case KPl1 => PutExit(env, st, Pl1Node, val);
    case KPl2 => PutExit(env, st, Pl2Node, val);
    case KTau => PutExit(env, st, TauNode, val);
    case KFwPl1 => PutKeepsPoints(env, st, FwPl1Node, val, false);
    case KFwPl2 => PutKeepsPoints(env, st, FwPl2Node, val, false);
    case KCurve => CurveExit(env, st, val);
    case KFullspeed => PutKeepsPoints(env, st, FullspeedNode, val, false);
    case KCoupling => PutKeepsPoints(env, st, CouplingNode, val, false);
    case KOther =>
  }

  lemma PutExit(env: Env, st: State, node: Node, val: string)
    requires node in {ModeNode, Pl1Node, Pl2Node, TauNode}
    ensures var st', bad := Put(env, st, node, val, true),
                            if node == ModeNode then ModeRefused(val) else Kstrtou64(val + "\n").None?;
            st'.rc == (if bad then 1 else st.rc) && |st'.m.curve| == |st.m.curve|
  {
  }

  /** The boot script fails if and only if some line it must get through is refused: of
      POWERMODE, the three powercap limits and the points of the curve, and of nothing
      else. That depends on the text alone, not on the machine it boots on. */
  lemma {:induction false} ExitCodeIff(env: Env, st: State, lines: seq<string>)
    ensures var st', n := Replayed(env, st, lines), |st.m.curve|;
            && st'.rc == (if exists k :: 0 <= k < |lines| && LineRefused(n, lines[k]) then 1 else st.rc)
            && |st'.m.curve| == n
    decreases |lines|
  {
    if lines != [] {
      var (key, val) := KeyValue(lines[0]);
      var st1, n := Dispatched(env, st, key, val), |st.m.curve|;
      LineExit(env, st, key, val);
      ExitCodeIff(env, st1, lines[1..]);
      assert (exists k :: 0 <= k < |lines| && LineRefused(n, lines[k])) <==>
             LineRefused(n, lines[0]) || exists k :: 0 <= k < |lines[1..]| && LineRefused(n, lines[1..][k]) by {
        assert forall k | 0 < k < |lines| :: lines[k] == lines[1..][k - 1];
      }
    }
  }

  /** A printed snapshot of a machine with all its points fails on none of its lines but
      the curve, and on that if and only if a temperature is above 127 or a speed shows
      above 255. */
  lemma SnapshotFailsIff(env: Env, saved: Machine, st: State)
    requires IsMode(saved.mode) && RaplFits(saved.rapl) && |saved.curve| == |st.m.curve| == POINTS && st.rc == 0
    ensures Replayed(env, st, Lines(File(SnapshotLines(env, saved)))).rc
         == if exists i :: 0 <= i < POINTS && Unshowable(env, saved.curve[i]) then 1 else 0
  {
    FileReplaysSettings(env, saved, st);
    var limits, curve := LimitSettings(saved), CurveSettings(env, ShownCurve(env, saved.curve));
    assert saved.curve[..POINTS] == saved.curve && Settings(env, saved) == limits + curve;
    SettingsExit(env, st, limits + curve);
    LimitsAreAccepted(env, saved);
    NeverRefused(curve[1].key, curve[1].val);
    RefusedAtCurve(limits, curve);
    CurveIsRefusedIff(env, saved.curve);
    RefusedKeys(POINTS, curve[0].key, curve[0].val);
    KeysAreKnown();
  }

  lemma RefusedAtCurve(limits: seq<Setting>, curve: seq<Setting>)
    requires Accepted(limits) && |curve| == 2 && !SettingRefused(POINTS, curve[1])
    ensures var ss := limits + curve;
            (exists k :: 0 <= k < |ss| && SettingRefused(POINTS, ss[k])) <==> SettingRefused(POINTS, curve[0])
  {
    var ss := limits + curve;
    assert ss[|limits|] == curve[0];
    assert forall k | 0 <= k < |limits| :: ss[k] in limits;
  }

  predicate RaplFits(r: Rapl)
  {
    r.pl1 < TWO_32 * TWO_32 && r.pl2 < TWO_32 * TWO_32 && r.tau < TWO_32 * TWO_32
  }

  predicate Unshowable(env: Env, t: Trip) { t.temp > 127 || ShownPwm(env, t) > 255 }

  predicate SettingRefused(points: nat, s: Setting) { Refused(points, s.key, s.val) }

  lemma {:induction false} SettingsExit(env: Env, st: State, ss: seq<Setting>)
    ensures DispatchedAll(env, st, ss).rc
         == if exists k :: 0 <= k < |ss| && SettingRefused(|st.m.curve|, ss[k]) then 1 else st.rc
    decreases |ss|
  {
    if ss != [] {
      var n := |st.m.curve|;
      LineExit(env, st, ss[0].key, ss[0].val);
      SettingsExit(env, Dispatched(env, st, ss[0].key, ss[0].val), ss[1..]);
      assert (exists k :: 0 <= k < |ss| && SettingRefused(n, ss[k])) <==>
             SettingRefused(n, ss[0]) || exists k :: 0 <= k < |ss[1..]| && SettingRefused(n, ss[1..][k]) by {
        assert forall k | 0 < k < |ss| :: ss[k] == ss[1..][k - 1];
      }
    }
  }

  predicate Accepted(ss: seq<Setting>) { forall s | s in ss :: !SettingRefused(POINTS, s) }

  lemma AcceptedAppend(ss: seq<Setting>, tt: seq<Setting>)
    requires Accepted(ss) && Accepted(tt)
    ensures Accepted(ss + tt)
  {
  }

  lemma LimitsAreAccepted(env: Env, m: Machine)
    requires IsMode(m.mode) && RaplFits(m.rapl)
    ensures Accepted(LimitSettings(m))
  {
    ModeIsAccepted(m.mode, m.fullspeed);
    RaplAreAccepted(m.rapl);
    FirmwareIsAccepted(m.firmware);
    NeverRefused("PL_COUPLING", ShowBool(m.coupling));
    AcceptedAppend(ModeSettings(m), RaplSettings(m.rapl));
    AcceptedAppend(ModeSettings(m) + RaplSettings(m.rapl), FirmwareSettings(m.firmware));
    AcceptedAppend(ModeSettings(m) + RaplSettings(m.rapl) + FirmwareSettings(m.firmware),
                   [Setting("PL_COUPLING", ShowBool(m.coupling))]);
  }

  lemma ModeIsAccepted(mode: int, full: bool)
    requires IsMode(mode)
    ensures Accepted([Setting("POWERMODE", Show(mode)), Setting("FAN_FULLSPEED", ShowBool(full))])
  {
    ShownIsUint(mode);
    ModeKey("POWERMODE");
    RefusedKeys(POINTS, "POWERMODE", Show(mode));
    NeverRefused("FAN_FULLSPEED", ShowBool(full));
  }

  lemma RaplAreAccepted(r: Rapl)
    requires RaplFits(r)
    ensures Accepted(RaplSettings(r))
  {
    RaplIsAccepted("PL1_UW", r.pl1);
    RaplIsAccepted("PL2_UW", r.pl2);
    RaplIsAccepted("TAU_US", r.tau);
  }

  lemma RaplIsAccepted(key: string, n: nat)
    requires (key == "PL1_UW" || key == "PL2_UW" || key == "TAU_US") && n < TWO_32 * TWO_32
    ensures !Refused(POINTS, key, Show(n))
  {
    ShownIsParsedU64(n);
  }

  lemma FirmwareIsAccepted(l: Limits)
    ensures Accepted(FirmwareSettings(l))
  {
    NeverRefused("FW_PL1", Show(l.pl1));
    NeverRefused("FW_PL2", Show(l.pl2));
  }

  lemma NeverRefused(key: string, val: string)
    requires key in {"FAN_FULLSPEED", "FW_PL1", "FW_PL2", "PL_COUPLING", "FAN_MAX"}
    ensures !Refused(POINTS, key, val)
  {
    KeysAreKnown();
    RefusedKeys(POINTS, key, val);
  }

  lemma CurveIsRefusedIff(env: Env, curve: seq<Trip>)
    requires |curve| == POINTS
    ensures var ps := ShownCurve(env, curve);
            SomePointRefused(POINTS, Pairs(ShowCurve(ps)), 0)
            <==> exists i :: 0 <= i < POINTS && Unshowable(env, curve[i])
  {
    var ps := ShownCurve(env, curve);
    var pairs := Pairs(ShowCurve(ps));
    assert |pairs| == POINTS by { PrintedCurveParses(ps); }
    forall i | 0 <= i < POINTS
      ensures PointRefused(POINTS, i, pairs[i]) <==> Unshowable(env, curve[i])
    {
      PointIsRefusedIff(env, curve, i);
    }
  }

  lemma PointIsRefusedIff(env: Env, curve: seq<Trip>, i: nat)
    requires i < |curve| == POINTS
    ensures var pairs := Pairs(ShowCurve(ShownCurve(env, curve)));
            |pairs| == POINTS && (PointRefused(POINTS, i, pairs[i]) <==> Unshowable(env, curve[i]))
  {
    ShownPwmFits(env, curve[i]);
    CurveRoundTrip(ShownCurve(env, curve), i);
  }

  lemma ShownPwmFits(env: Env, t: Trip)
    ensures 0 <= ShownPwm(env, t) < TWO_31
  {
    var n, max := ToU32(t.speed * 255 * 100), EffectiveMaxRpm(env.maxRpm);
    assert 0 <= n <= 255 * 255 * 100;
    DivisionShrinks(n, max);
  }

  lemma DivisionShrinks(n: nat, d: nat)
    requires d > 0
    ensures 0 <= n / d <= n
  {
    var q := n / d;
    if q > n { Larger(q, d); }
  }

  lemma Larger(q: nat, d: nat)
    requires d > 0
    ensures d * q >= q
  {
  }

  // ---- what the snapshot holds ----

  function Line(key: string, val: string): string { key + "=" + val }

  /** The snapshot, word for word. */
  lemma SnapshotIsLiteral(env: Env, m: Machine)
    ensures SnapshotLines(env, m)
         == ["# written by 83sc-control boot-save", "# replayed by 83sc-thermal.service"]
            + LimitText(m) + CurveText(env, m.curve)
  {
    LimitLinesAreLiteral(m);
    CurveTextIsShown(env, m);
    ShownAppend(LimitSettings(m), CurvePart(env, m));
  }

  function CurvePart(env: Env, m: Machine): seq<Setting>
  {
    if |m.curve| < 10 then [] else CurveSettings(env, ShownCurve(env, m.curve[..10]))
  }

  lemma CurveTextIsShown(env: Env, m: Machine)
    ensures ShownSettings(CurvePart(env, m)) == CurveText(env, m.curve)
  {
  }

  lemma ShownAppend(ss: seq<Setting>, tt: seq<Setting>)
    ensures ShownSettings(ss + tt) == ShownSettings(ss) + ShownSettings(tt)
  {
  }

  function LimitText(m: Machine): seq<string>
  {
    [Line("POWERMODE", Show(m.mode)), Line("FAN_FULLSPEED", if m.fullspeed then "1" else "0"),
     Line("PL1_UW", Show(m.rapl.pl1)), Line("PL2_UW", Show(m.rapl.pl2)), Line("TAU_US", Show(m.rapl.tau)),
     Line("FW_PL1", Show(m.firmware.pl1)), Line("FW_PL2", Show(m.firmware.pl2)),
     Line("PL_COUPLING", if m.coupling then "1" else "0")]
  }

  lemma LimitLinesAreLiteral(m: Machine)
    ensures ShownSettings(LimitSettings(m)) == LimitText(m)
  {
    var ss := LimitSettings(m);
    assert ss[0] == ModeSettings(m)[0] && ss[1] == ModeSettings(m)[1];
    assert ss[2] == RaplSettings(m.rapl)[0] && ss[3] == RaplSettings(m.rapl)[1] && ss[4] == RaplSettings(m.rapl)[2];
    assert ss[5] == FirmwareSettings(m.firmware)[0] && ss[6] == FirmwareSettings(m.firmware)[1];
    assert ss[7] == Setting("PL_COUPLING", ShowBool(m.coupling));
  }

  function CurveText(env: Env, curve: seq<Trip>): seq<string>
  {
    if |curve| < 10 then []
    else [Line("CURVE_PWM", ShowCurve(ShownCurve(env, curve[..10]))), Line("FAN_MAX", Show(MaxRpmOr10000(env)))]
  }

  function MaxRpmOr10000(env: Env): (max: int)
    ensures max > 0
  {
    if env.maxRpm == 0 then 10000 else env.maxRpm
  }

  /** The text of the curve, point by point. */
  lemma CurveIsLiteral(env: Env, curve: seq<Trip>, i: nat)
    requires i < |curve|
    ensures |Pairs(ShowCurve(ShownCurve(env, curve)))| == |curve|
    ensures Pairs(ShowCurve(ShownCurve(env, curve)))[i]
         == Show(curve[i].temp) + ":" + Show(curve[i].speed * 25500 / MaxRpmOr10000(env))
  {
    PrintedCurveParses(ShownCurve(env, curve));
    ShownPwmIs(env, curve[i]);
  }

  lemma ShownPwmIs(env: Env, t: Trip)
    ensures ShownPwm(env, t) == t.speed * 25500 / MaxRpmOr10000(env)
  {
    FitsU32(t.speed * 25500);
  }

  lemma FitsU32(n: nat)
    requires n < TWO_32
    ensures ToU32(n) == n
  {
  }

  // ---- what one write does ----

  /** A mode is cast to a byte before it is looked at, while the driver remembers the whole
      number; the firmware reloads the table of the mode it was given. */
  lemma ModeWriteIff(env: Env, m: Machine, n: nat)
    requires n < TWO_31
    ensures var a := Written(env, m, ModeNode, Show(n) + "\n");
            && (a.ok <==> n % 256 in {1, 2, 3, 224, 255})
            && (!a.ok ==> a.m == m)
            && (a.ok ==> && a.m == m.(mode := n % 256, known := n, curve := a.m.curve)
                         && |a.m.curve| == |m.curve|
                         && forall i | 0 <= i < |m.curve| :: a.m.curve[i] == env.table(n % 256, i))
  {
    ShownIsUint(n);
    ModeCasts(n);
  }

  lemma ModeCasts(n: nat)
    requires n < TWO_31
    ensures ToU8(n) == n % 256 && ToI32(n) == n
  {
  }

  /** Outside custom mode a write to the curve is accepted or refused as in it, but leaves
      the machine as it was. */
  lemma CurveWritesNeedCustom(env: Env, m: Machine, node: Node, text: string)
    requires node.TempNode? || node.PwmNode?
    ensures Written(env, m, node, text).ok <==> Written(env, m.(mode := 255), node, text).ok
    ensures m.mode != 255 ==> Written(env, m, node, text).m == m
  {
  }

  /** Full speed can be switched on in custom mode only, and off in any. */
  lemma FullspeedWriteIff(env: Env, m: Machine, b: bool)
    ensures var a := Written(env, m, FullspeedNode, if b then "1\n" else "0\n");
            && (a.ok <==> !b || m.mode == 255)
            && a.m == if a.ok then m.(fullspeed := b) else m
  {
    ShownBool(b);
    assert "1" + "\n" == "1\n" && "0" + "\n" == "0\n";
  }

  // ---- how numbers are read ----

  lemma TwoDigits(c: char, d: char, base: nat)
    ensures Number([c], base) == (if DigitValue(c).Some? && DigitValue(c).value < base then DigitValue(c) else None)
    ensures Number([c, d], base)
         == if Number([c], base).None? || Number([d], base).None? then None
            else Some(Number([c], base).value * base + Number([d], base).value)
  {
    assert [c, d][..1] == [c];
  }

  /** One newline is let pass, and nothing else around or inside a number. */
  lemma OneNewlineIsDropped()
    ensures Kstrtoint("31\n", 10) == Some(31) && Kstrtoint("31", 10) == Some(31) && Kstrtoint("31\n\n", 10) == None
    ensures Kstrtoint("\n", 10) == None && Kstrtoint("", 10) == None
  {
    TwoDigits('3', '1', 10);
    assert WithoutNewline("31\n") == "31" && WithoutNewline("31\n\n") == "31\n";
    assert Number("31\n", 10) == None;
    assert WithoutNewline("\n") == "";
  }

  /** So is one sign, of which the unsigned parser knows only the plus. */
  lemma OneSignIsRead()
    ensures Kstrtoint("+7\n", 10) == Some(7) && Kstrtoint("-7\n", 10) == Some(-7)
    ensures Kstrtou64("+7\n") == Some(7) && Kstrtou64("-7\n") == None
  {
    TwoDigits('7', '7', 10);
    assert WithoutNewline("+7\n") == "+7" && WithoutNewline("-7\n") == "-7" && "+7"[1..] == "7" == "-7"[1..];
    assert WithoutPlus("-7") == "-7" && Number("-7", 10) == None by { TwoDigits('-', '7', 10); }
  }

  /** In base 0 a 0x means hexadecimal and a leading 0 octal; in base 10 they do not. */
  lemma BaseIsRead()
    ensures Kstrtoint("0x1f\n", 0) == Some(31) && Kstrtoint("0x1f\n", 10) == None
    ensures Kstrtoint("017\n", 0) == Some(15) && Kstrtoint("08\n", 0) == None && Kstrtoint("08\n", 10) == Some(8)
  {
    TwoDigits('1', 'f', 16);
    TwoDigits('0', '8', 8);
    TwoDigits('0', '8', 10);
    assert WithoutNewline("0x1f\n") == "0x1f" && "0x1f"[2..] == "1f";
    assert Number("0x1f", 10) == None;
    assert WithoutNewline("08\n") == "08";
    SeventeenInOctal();
  }

  lemma SeventeenInOctal()
    ensures WithoutNewline("017\n") == "017" && Number("017", 8) == Some(15)
  {
    TwoDigits('0', '1', 8);
    assert "017"[..2] == "01" && WithoutNewline("017\n") == "017";
  }

  // ---- curve.conf ----

  predicate Blank(s: string) { forall c | c in s :: IsBlank(c) }

  lemma {:induction false} IndentIsDropped(indent: string, s: string)
    requires Blank(indent) && s != [] && !IsBlank(s[0])
    ensures WithoutIndent(indent + s) == s
    decreases |indent|
  {
    if indent == [] {
      assert indent + s == s;
    } else {
      assert indent[0] in indent && (forall c | c in indent[1..] :: c in indent);
      assert (indent + s)[1..] == indent[1..] + s;
      IndentIsDropped(indent[1..], s);
    }
  }

  lemma {:induction false} TailIsDropped(s: string, tail: string)
    requires Blank(tail) && s != [] && !IsBlank(s[|s| - 1])
    ensures WithoutTail(s + tail) == s
    decreases |tail|
  {
    if tail == [] {
      assert s + tail == s;
    } else {
      var n := |tail| - 1;
      assert tail[n] in tail && (forall c | c in tail[..n] :: c in tail);
      assert (s + tail)[..|s| + n] == s + tail[..n];
      TailIsDropped(s, tail[..n]);
    }
  }

  /** However a line of curve.conf is spaced, its two words are its fields. */
  lemma SpacingDoesNotMatter(indent: string, a: string, gap: string, b: string, tail: string)
    requires Blank(indent) && Word(a) && Blank(gap) && gap != "" && Word(b) && Blank(tail)
    ensures Fields(indent + a + gap + b + tail) == (a, b) && IsPoint(indent + a + gap + b + tail)
  {
    var s, line := a + gap + b, indent + a + gap + b + tail;
    assert a[0] in a && b[0] in b && b[|b| - 1] in b && gap[0] in gap;
    assert line == indent + (s + tail);
    assert (s + tail)[0] == a[0] && s[|s| - 1] == b[|b| - 1];
    IndentIsDropped(indent, s + tail);
    TailIsDropped(s, tail);
    FirstBlankIs(s, |a|, a);
    assert s[..|a|] == a && s[|a|..] == gap + b;
    IndentIsDropped(gap, b);
  }

  lemma FirstBlankIs(s: string, n: nat, a: string)
    requires n < |s| && s[..n] == a && IsBlank(s[n]) && forall c | c in a :: !IsBlank(c)
    ensures FirstBlank(s) == n
  {
    forall i | 0 <= i < n
      ensures !IsBlank(s[i])
    {
      assert s[i] == a[i] && a[i] in a;
    }
  }

  /** Comments and blank lines, indented or not, are no points; everything else is. */
  lemma IsPointIff(indent: string, s: string)
    requires Blank(indent) && (s == "" || !IsBlank(s[0]))
    ensures IsPoint(indent + s) <==> s != "" && s[0] != '#'
  {
    if s == "" { OnlyIndent(indent); assert indent + s == indent; } else { IndentIsDropped(indent, s); }
  }

  lemma {:induction false} OnlyIndent(indent: string)
    requires Blank(indent)
    ensures WithoutIndent(indent) == ""
    decreases |indent|
  {
    if indent != [] {
      assert indent[0] in indent && forall c | c in indent[1..] :: c in indent;
      OnlyIndent(indent[1..]);
    }
  }

  /** A file that does not have exactly ten points changes nothing and fails. */
  lemma WrongCountIsRefused(env: Env, st: State, text: string)
    requires |PointLines(Split(text, '\n'))| != 10
    ensures ConfApplied(env, st, text) == State(st.m, 1)
  {
  }

  /** A point whose rpm is no number ends the loop: it and all the points below it are left
      alone. */
  lemma BadNumberEndsLoop(env: Env, pr: Progress, lines: seq<string>, k: nat)
    requires k < |lines| && ShellNumber(Fields(lines[k]).1).None?
    ensures Downward(ConfPutter(env), pr, lines, 0).st == Downward(ConfPutter(env), pr, lines, k + 1).st
  {
    NextDown(ConfPutter(env), pr, lines, k, Downward(ConfPutter(env), pr, lines, k + 1));
    StoppedStays(env, pr, lines, k);
  }
}
