/** The older way a curve reaches the next boot: `83sc-fan save-boot` prints it in rpm to
    curve.conf, and the boot script turns rpm back into PWM values. Unlike boot.conf,
    which keeps hardware units, this route can raise a speed each time it is taken. */
module CurveConf {
  import opened MachineInts
  import opened SpeedCodec
  import opened FanRequest
  import opened PowerLimits
  import opened BootText
  import opened Descending
  import opened BootReplay
  import opened BootRestore
  import opened GuiHardware

  // ---- printing ----

  function ShownRpm(env: Env, t: Trip): int { PwmToRpm(ShownPwm(env, t), FanMax(env)) }

  function ConfLine(env: Env, t: Trip): string { Show(t.temp) + " " + Show(ShownRpm(env, t)) }

  const SAVED_BY: string := "# written by 83sc-fan save-boot"
  const COLUMNS: string := "# temp_C  rpm"

  function CurveLines(env: Env, curve: seq<Trip>): (lines: seq<string>)
    ensures |lines| == |curve| && forall i | 0 <= i < |curve| :: lines[i] == ConfLine(env, curve[i])
  {
    seq(|curve|, i requires 0 <= i < |curve| => ConfLine(env, curve[i]))
  }

  function ConfText(env: Env, curve: seq<Trip>): string { File([SAVED_BY, COLUMNS] + CurveLines(env, curve)) }

  /** `cmd_save_boot` */
  method SaveBoot(env: Env, curve: seq<Trip>) returns (text: string)
    ensures text == ConfText(env, curve)
  {
    var header := [SAVED_BY, COLUMNS];
    var lines := header;
    ghost var body := CurveLines(env, curve);
    for p := 0 to |curve|
      invariant lines == header + body[..p]
    {
      var t, r := curve[p].temp, ShownRpm(env, curve[p]);
      assert body[..p + 1] == body[..p] + [body[p]];
      lines := lines + [Show(t) + " " + Show(r)];
    }
    assert body[..|curve|] == body;
    text := File(lines);
  }

  // ---- parsing ----

  predicate IsBlank(c: char) { c == ' ' || c == '\t' }

  function WithoutIndent(s: string): (r: string)
    ensures |r| <= |s|
  {
    if s != [] && IsBlank(s[0]) then WithoutIndent(s[1..]) else s
  }

  /** `grep -vE '^\s*(#|$)'` keeps the line. */
  predicate IsPoint(line: string)
  {
    var s := WithoutIndent(line);
    s != [] && s[0] != '#'
  }

  function PointLines(lines: seq<string>): seq<string>
  {
    if lines == [] then [] else (if IsPoint(lines[0]) then [lines[0]] else []) + PointLines(lines[1..])
  }

  function WithoutTail(s: string): string
  {
    if s != [] && IsBlank(s[|s| - 1]) then WithoutTail(s[..|s| - 1]) else s
  }

  function FirstBlank(s: string): (n: nat)
    ensures n <= |s| && (forall i | 0 <= i < n :: !IsBlank(s[i])) && (n < |s| ==> IsBlank(s[n]))
  {
    if s == [] || IsBlank(s[0]) then 0 else FirstBlank(s[1..]) + 1
  }

  /** `read -r temp rpm` */
  function Fields(line: string): (string, string)
  {
    var s := WithoutTail(WithoutIndent(line));
    var n := FirstBlank(s);
    (s[..n], WithoutIndent(s[n..]))
  }

  /** The shell's value of a number. */
  function ShellNumber(s: string): Option<int>
  {
    if s != [] && s[0] == '-' then
      var n := Unsigned(s[1..], 0);
      if n.None? then None else Some(0 - n.value)
    else
      var n := Unsigned(s, 0);
      if n.None? then None else Some(n.value)
  }

  // ---- applying ----

  /** How far the loop came: an arithmetic error ends it. */
  datatype Progress = Progress(st: State, stopped: bool)

  function PutConfPoint(env: Env, pr: Progress, i: nat, line: string): Progress
  {
    if pr.stopped then pr
    else
      var (temp, rpm) := Fields(line);
      match ShellNumber(rpm)
      case None => pr.(stopped := true)
      case Some(r) => pr.(st := PutFields(env, pr.st, i, temp, RpmToPwm(r, FanMax(env))))
  }

  function PutFields(env: Env, st: State, i: nat, temp: string, pwm: int): State
  {
    Put(env, Put(env, st, TempNode(i), temp, true), PwmNode(i), Show(pwm), true)
  }

  function ConfPutter(env: Env): (Progress, nat, string) -> Progress
  {
    (pr: Progress, i: nat, line: string) => PutConfPoint(env, pr, i, line)
  }

  /** `apply_curve`; a file without exactly ten points is refused. */
  function ConfApplied(env: Env, st: State, text: string): State
  {
    var lines := PointLines(Split(text, '\n'));
    if |lines| != POINTS then st.(rc := 1)
    else Downward(ConfPutter(env), Progress(CurvePrepared(env, st), false), lines, 0).st
  }

  method ApplyCurve(script: BootScript, text: string)
    modifies script
    ensures script.Value() == ConfApplied(script.env, old(script.Value()), text)
  {
    var lines := PointLines(Split(text, '\n'));
    if |lines| != POINTS {
      script.rc := 1;
      return;
    }
    script.PrepareCurve();
    ApplyLines(script, lines);
  }

  method ApplyLines(script: BootScript, lines: seq<string>)
    modifies script
    ensures script.Value() == Downward(ConfPutter(script.env), Progress(old(script.Value()), false), lines, 0).st
  {
    ghost var step, start := ConfPutter(script.env), Progress(script.Value(), false);
    var i, stopped := |lines|, false;
    while i > 0 && !stopped
      invariant 0 <= i <= |lines|
      invariant Progress(script.Value(), stopped) == Downward(step, start, lines, i)
    {
      i := i - 1;
      NextDown(step, start, lines, i, Progress(script.Value(), stopped));
      stopped := ApplyLine(script, i, lines[i]);
    }
    if stopped { StoppedStays(script.env, start, lines, i); }
  }

  /** One pass of the loop; an arithmetic error comes before either write. */
  method ApplyLine(script: BootScript, i: nat, line: string) returns (stopped: bool)
    modifies script
    ensures Progress(script.Value(), stopped)
         == ConfPutter(script.env)(Progress(old(script.Value()), false), i, line)
  {
    var (temp, rpm) := Fields(line);
    var r := ShellNumber(rpm);
    if r.None? { return true; }
    script.PutNode(TempNode(i), temp, true);
    script.PutNode(PwmNode(i), Show(RpmToPwm(r.value, FanMax(script.env))), true);
    stopped := false;
  }

  /** After an error nothing more is written. */
  lemma StoppedStays(env: Env, start: Progress, lines: seq<string>, i: nat)
    requires i <= |lines| && Downward(ConfPutter(env), start, lines, i).stopped
    ensures Downward(ConfPutter(env), start, lines, 0) == Downward(ConfPutter(env), start, lines, i)
  {
    DownwardRests(ConfPutter(env), start, lines, i, 0);
  }

  // ---- the text is transparent ----

  ghost predicate Word(s: string)
  {
    s != [] && forall c | c in s :: !IsBlank(c) && c != '\n' && c != '#'
  }

  lemma NumbersAreWords(i: int)
    ensures Word(Show(i))
  {
    DigitsAreANumber(Abs(i));
  }

  lemma FieldsOf(a: string, b: string)
    requires Word(a) && Word(b)
    ensures var s := a + " " + b;
            Fields(s) == (a, b) && IsPoint(s) && '\n' !in s
  {
    var s := a + " " + b;
    NoBlankEnds(a, b);
    BlankAfter(a, b);
    assert s[..|a|] == a;
    BlankThenWord(b);
    assert s[|a|..] == " " + b;
  }

  lemma NoBlankEnds(a: string, b: string)
    requires Word(a) && Word(b)
    ensures var s := a + " " + b; s[0] == a[0] && a[0] in a && WithoutIndent(s) == s && WithoutTail(s) == s
  {
    var s := a + " " + b;
    assert s[0] == a[0] && a[0] in a;
    assert s[|s| - 1] == b[|b| - 1] && b[|b| - 1] in b;
  }

  lemma BlankThenWord(b: string)
    requires Word(b)
    ensures WithoutIndent(" " + b) == b
  {
    assert (" " + b)[1..] == b && b[0] in b;
    assert WithoutIndent(b) == b;
  }

  lemma BlankAfter(a: string, b: string)
    requires Word(a)
    ensures FirstBlank(a + " " + b) == |a|
  {
    var s := a + " " + b;
    assert IsBlank(s[|a|]);
    forall i | 0 <= i < |a|
      ensures !IsBlank(s[i])
    {
      assert s[i] == a[i] && a[i] in a;
    }
  }

  lemma ConfLineFields(env: Env, t: Trip)
    ensures Fields(ConfLine(env, t)) == (Show(t.temp), Show(ShownRpm(env, t)))
    ensures IsPoint(ConfLine(env, t)) && '\n' !in ConfLine(env, t)
  {
    NumbersAreWords(t.temp);
    NumbersAreWords(ShownRpm(env, t));
    FieldsOf(Show(t.temp), Show(ShownRpm(env, t)));
  }

  lemma {:induction false} PointLinesOf(lines: seq<string>)
    requires forall l | l in lines :: IsPoint(l)
    ensures PointLines(lines + [""]) == lines
    decreases |lines|
  {
    if lines == [] {
      assert [""][1..] == [];
      assert PointLines([""]) == PointLines([]);
    } else {
      assert lines[0] in lines;
      assert (lines + [""])[1..] == lines[1..] + [""];
      PointLinesOf(lines[1..]);
    }
  }

  lemma CommentIsNoPoint(comment: string, lines: seq<string>)
    requires comment != "" && comment[0] == '#'
    ensures PointLines([comment] + lines) == PointLines(lines)
  {
    assert ([comment] + lines)[1..] == lines;
  }

  lemma HeaderCharacters()
    ensures SAVED_BY != "" && SAVED_BY[0] == '#' && '\n' !in SAVED_BY
    ensures COLUMNS != "" && COLUMNS[0] == '#' && '\n' !in COLUMNS
  {
  }

  /** The points read back from the file are the lines printed for the curve. */
  lemma PrintedConfParses(env: Env, curve: seq<Trip>)
    ensures PointLines(Split(ConfText(env, curve), '\n')) == CurveLines(env, curve)
  {
    var body := CurveLines(env, curve);
    var lines := [SAVED_BY, COLUMNS] + body;
    forall l | l in body
      ensures IsPoint(l) && '\n' !in l
    {
      var i :| 0 <= i < |body| && body[i] == l;
      ConfLineFields(env, curve[i]);
    }
    HeaderCharacters();
    JoinAppendEmpty(lines, '\n');
    SplitJoin(lines + [""], '\n');
    assert lines + [""] == [SAVED_BY] + ([COLUMNS] + (body + [""]));
    CommentIsNoPoint(SAVED_BY, [COLUMNS] + (body + [""]));
    CommentIsNoPoint(COLUMNS, body + [""]);
    PointLinesOf(body);
  }

  // ---- one generation ----

  /** What a saved point comes back as. */
  function Respun(env: Env, t: Trip): Trip
  {
    Trip(t.temp, SetSpeed(RpmHundred, env.maxRpm, RpmToPwm(ShownRpm(env, t), FanMax(env))).value)
  }

  lemma ShellReadsShown(i: int)
    requires i >= 0
    ensures ShellNumber(Show(i)) == Some(i)
  {
    DigitsAreUnsigned(i, 0);
    NumbersAreWords(i);
    DigitsAreANumber(i);
    assert Show(i)[0] in Show(i);
  }

  lemma ConfPointIsPut(env: Env, st: State, i: nat, t: Trip)
    requires st.m.mode == CUSTOM && i < |st.m.curve| && t.temp <= 127
    ensures var pr := PutConfPoint(env, Progress(st, false), i, ConfLine(env, t));
            !pr.stopped && pr.st.m == st.m.(curve := st.m.curve[i := Respun(env, t)])
  {
    var rpm := ShownRpm(env, t);
    ConfLineFields(env, t);
    ShownRpmIsNatural(env, t);
    ShellReadsShown(rpm);
    TempIsPut(env, st, i, t.temp);
    PwmIsPut(env, Put(env, st, TempNode(i), Show(t.temp), true), i, RpmToPwm(rpm, FanMax(env)));
  }

  lemma ShownRpmIsNatural(env: Env, t: Trip)
    ensures ShownRpm(env, t) >= 0
  {
    ShownPwmIsSmall(env, t);
    MulMonotone(0, ShownPwm(env, t), FanMax(env));
  }

  /** A table whose points from k up have been rewritten. */
  function RespunFrom(env: Env, was: seq<Trip>, curve: seq<Trip>, k: nat): (r: seq<Trip>)
    requires k <= |curve| == |was|
    ensures |r| == |curve|
    ensures forall i | 0 <= i < |r| :: r[i] == if k <= i then Respun(env, curve[i]) else was[i]
  {
    was[..k] + seq(|curve| - k, i requires 0 <= i < |curve| - k => Respun(env, curve[k + i]))
  }

  lemma RespunStep(env: Env, was: seq<Trip>, curve: seq<Trip>, k: nat)
    requires k < |curve| == |was|
    ensures RespunFrom(env, was, curve, k + 1)[k := Respun(env, curve[k])] == RespunFrom(env, was, curve, k)
  {
  }

  lemma ConfLinesStep(env: Env, st: State, st1: State, curve: seq<Trip>, k: nat)
    requires st.m.mode == CUSTOM && k < |curve| == |st.m.curve| && curve[k].temp <= 127
    requires st1.m == st.m.(curve := RespunFrom(env, st.m.curve, curve, k + 1))
    ensures var pr := PutConfPoint(env, Progress(st1, false), k, CurveLines(env, curve)[k]);
            !pr.stopped
            && pr.st.m == st.m.(curve := RespunFrom(env, st.m.curve, curve, k + 1)[k := Respun(env, curve[k])])
  {
    ConfPointIsPut(env, st1, k, curve[k]);
  }

  lemma ConfPointsArePut(env: Env, st: State, curve: seq<Trip>)
    requires st.m.mode == CUSTOM && |curve| == |st.m.curve| && forall t | t in curve :: t.temp <= 127
    ensures Downward(ConfPutter(env), Progress(st, false), CurveLines(env, curve), 0).st.m
         == st.m.(curve := RespunFrom(env, st.m.curve, curve, 0))
  {
    ghost var inv := (pr: Progress, k: nat) => k <= |curve| && !pr.stopped
                     && pr.st.m == st.m.(curve := RespunFrom(env, st.m.curve, curve, k));
    assert RespunFrom(env, st.m.curve, curve, |curve|) == st.m.curve;
    forall pr: Progress, i: nat | i < |curve| && inv(pr, i + 1)
      ensures inv(ConfPutter(env)(pr, i, CurveLines(env, curve)[i]), i)
    {
      assert curve[i] in curve;
      RespunStep(env, st.m.curve, curve, i);
      ConfLinesStep(env, st, pr.st, curve, i);
    }
    DownwardKeeps(ConfPutter(env), Progress(st, false), CurveLines(env, curve), 0, inv);
  }

  /** Saving a curve and booting with the file: custom mode, full speed off, and every
      point taken through rpm and back, whatever the machine booted with. */
  lemma SavedConfApplies(env: Env, curve: seq<Trip>, start: State)
    requires |curve| == |start.m.curve| == POINTS && forall t | t in curve :: t.temp <= 127
    ensures var m := ConfApplied(env, start, ConfText(env, curve)).m;
            && m.mode == CUSTOM && !m.fullspeed && |m.curve| == POINTS
            && forall i | 0 <= i < POINTS :: m.curve[i] == Respun(env, curve[i])
  {
    PrintedConfParses(env, curve);
    PreparedIsCustom(env, start);
    ConfPointsArePut(env, CurvePrepared(env, start), curve);
  }

  // ---- any number of generations ----

  /** A fan on which what is shown for a stored speed is that speed. */
  predicate ShowsStored(env: Env) { FanMax(env) <= 12750 && FanMax(env) % 100 == 0 }

  predicate InRange(env: Env, t: Trip) { t.temp <= 127 && 100 * t.speed <= FanMax(env) }

  /** Through the text, the shell, the driver's 8-bit cast and back, a point moves as
      one apply and readback in rpm moves it. */
  lemma RespunIsReapplied(env: Env, t: Trip)
    requires ShowsStored(env) && InRange(env, t)
    ensures Respun(env, t).temp == t.temp && Respun(env, t).speed == Reapplied(t.speed, FanMax(env))
    ensures InRange(env, Respun(env, t))
  {
    var max := FanMax(env);
    RpmHundredIsExact(env.maxRpm, 0, t.speed);
    ReadbackIsStoredIff(t.speed, max);
    RemainderIsSmall(t.speed * 25500, max);
    ReappliedIsGranted(t.speed, max);
    StoredIsCeil(env.maxRpm, RpmToPwm(100 * t.speed, max));
  }

  /** Save, boot from starts[0], apply; and again. */
  function ConfGenerations(env: Env, curve: seq<Trip>, starts: seq<State>): seq<Trip>
    decreases |starts|
  {
    if starts == [] then curve
    else ConfGenerations(env, ConfApplied(env, starts[0], ConfText(env, curve)).m.curve, starts[1..])
  }

  /** n cycles of apply and readback. */
  function Reapplications(env: Env, t: Trip, n: nat): int
    requires ShowsStored(env) && InRange(env, t)
  {
    FanRequest.Cycles(t.speed, FanMax(env), n)
  }

  /** Temperatures never drift, and the speed of every point after any number of
      generations is exactly that many cycles of apply and readback: never lower, and by
      ReapplyingSettles fixed after at most as many generations as there are hundreds of
      rpm above it. */
  lemma {:induction false} ConfGenerationsAreCycles(env: Env, curve: seq<Trip>, starts: seq<State>, i: nat)
    requires ShowsStored(env) && |curve| == POINTS && i < POINTS
    requires (forall j | 0 <= j < POINTS :: InRange(env, curve[j])) && forall s | s in starts :: |s.m.curve| == POINTS
    ensures var end := ConfGenerations(env, curve, starts);
            && |end| == POINTS && end[i].temp == curve[i].temp
            && end[i].speed == Reapplications(env, curve[i], |starts|)
    decreases |starts|
  {
    if starts != [] {
      assert starts[0] in starts;
      assert forall s | s in starts[1..] :: s in starts;
      var next := ConfApplied(env, starts[0], ConfText(env, curve)).m.curve;
      SavedConfApplies(env, curve, starts[0]);
      forall j | 0 <= j < POINTS
        ensures InRange(env, next[j])
      {
        RespunIsReapplied(env, curve[j]);
      }
      RespunIsReapplied(env, curve[i]);
      ReappliedIsGranted(curve[i].speed, FanMax(env));
      ConfGenerationsAreCycles(env, next, starts[1..], i);
    }
  }

  /** A stored speed userland's rounding does not raise. */
  predicate Kept(env: Env, t: Trip) { t.speed * 25500 % FanMax(env) < FanMax(env) - FanMax(env) / 2 }

  /** A point comes back as it was exactly when its speed is one of those. */
  lemma RespunIsSameIff(env: Env, t: Trip)
    requires ShowsStored(env) && InRange(env, t)
    ensures Respun(env, t) == t <==> Kept(env, t)
  {
    RespunIsReapplied(env, t);
    ReappliedIsGranted(t.speed, FanMax(env));
    RequestIsHonoured(t.speed, FanMax(env));
  }

  lemma {:induction false} KeptConfStays(env: Env, curve: seq<Trip>, starts: seq<State>)
    requires ShowsStored(env) && |curve| == POINTS && forall s | s in starts :: |s.m.curve| == POINTS
    requires forall j | 0 <= j < POINTS :: InRange(env, curve[j]) && Kept(env, curve[j])
    ensures ConfGenerations(env, curve, starts) == curve
    decreases |starts|
  {
    if starts != [] {
      assert starts[0] in starts;
      assert forall s | s in starts[1..] :: s in starts;
      ConfComesBackIff(env, curve, starts[0]);
      KeptConfStays(env, curve, starts[1..]);
    }
  }

  lemma ConfComesBackIff(env: Env, curve: seq<Trip>, start: State)
    requires ShowsStored(env) && |curve| == |start.m.curve| == POINTS
    requires forall j | 0 <= j < POINTS :: InRange(env, curve[j])
    ensures ConfApplied(env, start, ConfText(env, curve)).m.curve == curve
            <==> forall j | 0 <= j < POINTS :: Kept(env, curve[j])
  {
    SavedConfApplies(env, curve, start);
    var next := ConfApplied(env, start, ConfText(env, curve)).m.curve;
    forall j | 0 <= j < POINTS
      ensures next[j] == curve[j] <==> Kept(env, curve[j])
    {
      RespunIsSameIff(env, curve[j]);
    }
  }

  /** curve.conf keeps a curve over every number of generations exactly when the rounding
      raises none of its speeds. */
  lemma ConfNeverDriftsIff(env: Env, curve: seq<Trip>)
    requires ShowsStored(env) && |curve| == POINTS
    requires forall j | 0 <= j < POINTS :: InRange(env, curve[j])
    ensures (forall starts: seq<State> | (forall s | s in starts :: |s.m.curve| == POINTS) ::
               ConfGenerations(env, curve, starts) == curve)
            <==> forall j | 0 <= j < POINTS :: Kept(env, curve[j])
  {
    if forall j | 0 <= j < POINTS :: Kept(env, curve[j]) {
      forall starts: seq<State> | forall s | s in starts :: |s.m.curve| == POINTS
        ensures ConfGenerations(env, curve, starts) == curve
      {
        KeptConfStays(env, curve, starts);
      }
    } else {
      var start := ConfStart(curve);
      ConfComesBackIff(env, curve, start);
      OneConfGeneration(env, curve, start);
    }
  }

  lemma OneConfGeneration(env: Env, curve: seq<Trip>, start: State)
    ensures ConfGenerations(env, curve, [start]) == ConfApplied(env, start, ConfText(env, curve)).m.curve
  {
    assert [start][1..] == [];
  }

  function ConfStart(curve: seq<Trip>): State
  {
    State(Machine(CUSTOM, CUSTOM, false, Rapl(0, 0, 0), Limits(0, 0), false, curve), 0)
  }

  /** It does move: on this machine a point stored at 1200 rpm comes back at 1300, where
      boot.conf would have kept it. */
  lemma ConfRaisesPresetSpeed(env: Env, temp: u8)
    requires env.maxRpm == 5400 && temp <= 127
    ensures Respun(env, Trip(temp, 12)) == Trip(temp, 13) && Settled(env, Trip(temp, 12))
  {
    PresetSpeedIsRaised();
    RespunIsReapplied(env, Trip(temp, 12));
    InRangePointsSettle(env, Trip(temp, 12));
  }
}
