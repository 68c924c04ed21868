/** The replay of a curve on a firmware that rejects a temperature which would leave its
    table out of order: the reason given for writing the highest point first. */
module RejectingReplay {
  import opened MachineInts
  import opened SpeedCodec
  import opened BootText
  import opened BootReplay
  import opened BootRestore
  import opened Descending
  import opened TopDown

  function Temps(curve: seq<Trip>): (t: seq<int>)
    ensures |t| == |curve| && forall i | 0 <= i < |t| :: t[i] == curve[i].temp
  {
    seq(|curve|, i requires 0 <= i < |curve| => curve[i].temp as int)
  }

  function PairTemps(ps: seq<Pair>): (t: seq<int>)
    ensures |t| == |ps| && forall i | 0 <= i < |t| :: t[i] == ps[i].0
  {
    seq(|ps|, i requires 0 <= i < |ps| => ps[i].0)
  }

  /** One pass of the curve loop on such a firmware: a rejected temperature is reported and
      the speed is written all the same. */
  function PutPointChecked(env: Env, st: State, i: nat, pair: string): State
  {
    var st1 := Put(env, st, TempNode(i), BeforeFirstColon(pair), true);
    var st2 := if Sorted(Temps(st1.m.curve)) then st1 else st.(rc := 1);
    Put(env, st2, PwmNode(i), AfterLastColon(pair), true)
  }

  function CheckedPutter(env: Env): (State, nat, string) -> State
  {
    (st: State, i: nat, pair: string) => PutPointChecked(env, st, i, pair)
  }

  /** Values both the driver and the codec accept. */
  predicate Acceptable(env: Env, p: Pair)
  {
    0 <= p.0 <= 127 && 0 <= p.1 <= 255
  }

  /** A point's temperature is offered to the table, and its speed stored. */
  lemma CheckedPoint(env: Env, st: State, i: nat, p: Pair)
    requires st.m.mode == CUSTOM && i < |st.m.curve| && Acceptable(env, p)
    ensures var m := PutPointChecked(env, st, i, ShowPair(p)).m;
            && m == st.m.(curve := m.curve) && |m.curve| == |st.m.curve|
            && Temps(m.curve) == Offer(Temps(st.m.curve), i, p.0)
            && m.curve[i].speed == SetSpeed(RpmHundred, env.maxRpm, p.1).value
            && forall j | 0 <= j < |m.curve| && j != i :: m.curve[j].speed == st.m.curve[j].speed
  {
    PairFields(p);
    TempIsPut(env, st, i, p.0);
    var st1 := Put(env, st, TempNode(i), Show(p.0), true);
    assert Temps(st1.m.curve) == Temps(st.m.curve)[i := p.0];
    var st2 := if Sorted(Temps(st1.m.curve)) then st1 else st.(rc := 1);
    PwmIsPut(env, st2, i, p.1);
    assert Temps(PutPointChecked(env, st, i, ShowPair(p)).m.curve) == Temps(st2.m.curve);
  }

  /** What the loop has done from point k up: offered the temperatures to the table as it
      was, and stored the speeds. */
  ghost predicate Checked(env: Env, st: State, ps: seq<Pair>, st': State, k: nat)
    requires |ps| == |st.m.curve|
  {
    && k <= |ps| && st'.m == st.m.(curve := st'.m.curve) && |st'.m.curve| == |ps|
    && Temps(st'.m.curve) == Downward(Offerer(), Temps(st.m.curve), PairTemps(ps), k)
    && forall i | k <= i < |ps| :: SetSpeed(RpmHundred, env.maxRpm, ps[i].1) == Some(st'.m.curve[i].speed)
  }

  lemma CheckedStep(env: Env, st: State, ps: seq<Pair>, st': State, k: nat)
    requires st.m.mode == CUSTOM && |ps| == |st.m.curve| && k < |ps| && Acceptable(env, ps[k])
    requires Checked(env, st, ps, st', k + 1)
    ensures Checked(env, st, ps, PutPointChecked(env, st', k, ShowPairs(ps)[k]), k)
  {
    CheckedPoint(env, st', k, ps[k]);
  }

  /** The whole curve line, on a table of temperatures in order. */
  lemma CheckedCurve(env: Env, st: State, ps: seq<Pair>)
    requires st.m.mode == CUSTOM && |ps| == |st.m.curve| && forall p | p in ps :: Acceptable(env, p)
    ensures Checked(env, st, ps, Downward(CheckedPutter(env), st, ShowPairs(ps), 0), 0)
  {
    CheckedKeeps(env, st, ps);
    DownwardKeeps(CheckedPutter(env), st, ShowPairs(ps), 0, CheckedFrom(env, st, ps));
  }

  ghost function CheckedFrom(env: Env, st: State, ps: seq<Pair>): (State, nat) -> bool
    requires |ps| == |st.m.curve|
  {
    (st': State, k: nat) => Checked(env, st, ps, st', k)
  }

  lemma CheckedKeeps(env: Env, st: State, ps: seq<Pair>)
    requires st.m.mode == CUSTOM && |ps| == |st.m.curve| && forall p | p in ps :: Acceptable(env, p)
    ensures Keeps(CheckedPutter(env), ShowPairs(ps), CheckedFrom(env, st, ps))
  {
    var inv := CheckedFrom(env, st, ps);
    forall st': State, i: nat | i < |ps| && inv(st', i + 1)
      ensures inv(CheckedPutter(env)(st', i, ShowPairs(ps)[i]), i)
    {
      assert ps[i] in ps;
      CheckedStep(env, st, ps, st', i);
    }
  }

  /** Replaying a saved curve of settled points over the table the firmware loaded ends at
      the saved curve if and only if every temperature of that table is at most the saved
      temperature of the next point. */
  lemma CheckedReplayRestoresIff(env: Env, st: State, saved: seq<Trip>)
    requires st.m.mode == CUSTOM && |saved| == |st.m.curve| && forall t | t in saved :: Settled(env, t)
    requires Sorted(Temps(st.m.curve)) && Sorted(Temps(saved))
    ensures Downward(CheckedPutter(env), st, Pairs(ShowCurve(ShownCurve(env, saved))), 0).m.curve == saved
            <==> forall k | 0 < k < |saved| :: st.m.curve[k - 1].temp <= saved[k].temp
  {
    PrintedCurveParses(ShownCurve(env, saved));
    ShownAreAcceptable(env, saved);
    CheckedCurve(env, st, ShownCurve(env, saved));
    var st' := Downward(CheckedPutter(env), st, ShowPairs(ShownCurve(env, saved)), 0);
    CheckedIsSavedIff(env, st, saved, st');
    RejectingFirmwareTakesTableIff(Temps(st.m.curve), Temps(saved));
    TempsStepIff(st.m.curve, saved);
  }

  lemma TempsStepIff(was: seq<Trip>, saved: seq<Trip>)
    requires |was| == |saved|
    ensures (forall k | 0 < k < |saved| :: Temps(was)[k - 1] <= Temps(saved)[k])
            <==> forall k | 0 < k < |saved| :: was[k - 1].temp <= saved[k].temp
  {
    if forall k | 0 < k < |saved| :: Temps(was)[k - 1] <= Temps(saved)[k] {
      forall k | 0 < k < |saved|
        ensures was[k - 1].temp <= saved[k].temp
      {
        assert Temps(was)[k - 1] <= Temps(saved)[k];
      }
    }
  }

  /** The speeds always arrive, so the curve does exactly when the temperatures do. */
  lemma CheckedIsSavedIff(env: Env, st: State, saved: seq<Trip>, st': State)
    requires |saved| == |st.m.curve| && forall t | t in saved :: Settled(env, t)
    requires Checked(env, st, ShownCurve(env, saved), st', 0)
    ensures st'.m.curve == saved <==> Offered(Temps(st.m.curve), Temps(saved)) == Temps(saved)
  {
    assert PairTemps(ShownCurve(env, saved)) == Temps(saved);
    if Temps(st'.m.curve) == Temps(saved) {
      forall i | 0 <= i < |saved|
        ensures st'.m.curve[i] == saved[i]
      {
        ShownIsAcceptable(env, saved, i);
        assert Temps(st'.m.curve)[i] == Temps(saved)[i];
      }
    }
  }

  lemma ShownAreAcceptable(env: Env, saved: seq<Trip>)
    requires forall t | t in saved :: Settled(env, t)
    ensures forall p | p in ShownCurve(env, saved) :: Acceptable(env, p)
  {
    var ps := ShownCurve(env, saved);
    forall p | p in ps
      ensures Acceptable(env, p)
    {
      var i :| 0 <= i < |ps| && ps[i] == p;
      ShownIsAcceptable(env, saved, i);
    }
  }

  lemma ShownIsAcceptable(env: Env, saved: seq<Trip>, i: nat)
    requires i < |saved| && forall t | t in saved :: Settled(env, t)
    ensures Acceptable(env, ShownCurve(env, saved)[i])
    ensures SetSpeed(RpmHundred, env.maxRpm, ShownCurve(env, saved)[i].1) == Some(saved[i].speed)
  {
    assert saved[i] in saved;
    SpeedReturnsIff(env.maxRpm, saved[i].speed);
    ShownPwmIsSmall(env, saved[i]);
  }

  /** The gradual preset does not come back over the factory table. */
  lemma PresetOverFactoryIsLost(env: Env, st: State, saved: seq<Trip>)
    requires st.m.mode == CUSTOM && Temps(st.m.curve) == FACTORY_PERFORMANCE && Temps(saved) == PRESET_GRADUAL
    requires forall t | t in saved :: Settled(env, t)
    ensures Downward(CheckedPutter(env), st, Pairs(ShowCurve(ShownCurve(env, saved))), 0).m.curve != saved
  {
    FactoryToPresetInverts();
    CheckedReplayRestoresIff(env, st, saved);
    assert st.m.curve[8].temp == FACTORY_PERFORMANCE[8] && saved[9].temp == PRESET_GRADUAL[9];
  }
}
