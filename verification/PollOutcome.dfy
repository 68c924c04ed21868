/** What the poll loop settles on: which profile wins, what the hardware then holds, and
    what is left of it after a reboot. */
module PollOutcome {
  import opened MachineInts
  import opened SpeedCodec
  import opened FanRequest
  import opened CapData
  import opened PowerLimits
  import opened BootText
  import opened BootReplay
  import opened BootRestore
  import opened Profiles
  import opened GuiHardware
  import opened PollLoop

  // ---- who wins ----

  datatype Choice = Nobody | Chosen(p: Profile, source: Source)

  function Choose(p: Option<Profile>, source: Source, otherwise: Choice): Choice
  {
    if p.Some? then Chosen(p.value, source) else otherwise
  }

  function ModePending(cfg: Config, g: Gui): Option<Profile>
  {
    if g.live.hw.mode != g.seen.mode then ForMode(cfg, g.live.hw.mode) else None
  }

  function ChargerPending(cfg: Config, g: Gui, w: World): Option<Profile>
  {
    if g.seen.onBattery != Some(w.onBattery) then ForPower(cfg, w.onBattery) else None
  }

  function PlanPending(cfg: Config, g: Gui, w: World): Option<Profile>
  {
    if w.plan.Some? && w.plan != g.seen.plan then ForPlan(cfg, w.plan) else None
  }

  /** The last profile the first tick applies: the plan goes before the charger, and the
      charger before the mode. */
  function FirstTickWinner(cfg: Config, g: Gui, w: World): Choice
  {
    Choose(PlanPending(cfg, g, w), ByPlan,
      Choose(ChargerPending(cfg, g, w), ByCharger, Choose(ModePending(cfg, g), ByMode, Nobody)))
  }

  /** Unless the machine was in custom mode already, applying any profile makes custom
      mode news, and a profile bound to custom mode then replaces the one just applied. */
  predicate Overridden(cfg: Config, g: Gui, w: World)
  {
    FirstTickWinner(cfg, g, w).Chosen? && g.live.hw.mode != CUSTOM && ForMode(cfg, CUSTOM).Some?
  }

  function Winner(cfg: Config, g: Gui, w: World): Choice
  {
    if Overridden(cfg, g, w) then Chosen(ForMode(cfg, CUSTOM).value, ByMode) else FirstTickWinner(cfg, g, w)
  }

  /** What applying a profile makes of a machine. */
  type Maker = (Machine, Profile, Source) -> Machine

  function Then(make: Maker, m: Machine, p: Option<Profile>, source: Source): Machine
  {
    if p.Some? then make(m, p.value, source) else m
  }

  function AfterMode(make: Maker, cfg: Config, g: Gui): Machine
  {
    Then(make, g.live.hw, ModePending(cfg, g), ByMode)
  }

  function AfterCharger(make: Maker, cfg: Config, g: Gui, w: World): Machine
  {
    Then(make, AfterMode(make, cfg, g), ChargerPending(cfg, g, w), ByCharger)
  }

  function AfterPlan(make: Maker, cfg: Config, g: Gui, w: World): Machine
  {
    Then(make, AfterCharger(make, cfg, g, w), PlanPending(cfg, g, w), ByPlan)
  }

  /** The machine the loop settles on, from the machine, what was seen and the world. */
  function EndMachine(make: Maker, cfg: Config, g: Gui, w: World): Machine
  {
    if Overridden(cfg, g, w) then Then(make, AfterPlan(make, cfg, g, w), ForMode(cfg, CUSTOM), ByMode)
    else AfterPlan(make, cfg, g, w)
  }

  ghost predicate AllSound(cfg: Config)
  {
    forall p | p in cfg.profiles :: Sound(p)
  }

  predicate Started(g: Gui) { |g.live.hw.curve| == POINTS }

  /** Applying a sound profile with every write landing does what `make` says, raises the
      flag and ends in custom mode. */
  ghost predicate Makes(ap: Applier, make: Maker)
  {
    forall l: Live, p, source | Sound(p) && |l.hw.curve| == POINTS :: var m := make(l.hw, p, source);
      ap(l, p, source, LUCKY) == Live(m, true) && |m.curve| == POINTS && m.mode == CUSTOM
  }

  /** g' is g after the choice c was the last profile applied to it and left the machine m:
      recorded, and with the flag raised. */
  ghost predicate Outcome(g: Gui, g': Gui, m: Machine, c: Choice)
  {
    && g'.live.hw == m && |m.curve| == POINTS && g'.boot == g.boot
    && match c
       case Nobody => g'.live == g.live && g'.applied == g.applied
       case Chosen(p, source) =>
         && g'.applied != [] && g'.applied[|g'.applied| - 1] == p.name
         && Sound(p) && g'.live.changed && m.mode == CUSTOM
  }

  lemma MarkedOutcome(ap: Applier, make: Maker, g: Gui, g1: Gui, m: Machine, seen: Seen, c: Choice,
                      p: Option<Profile>, source: Source)
    requires Makes(ap, make) && Outcome(g, g1, m, c) && (p.Some? ==> Sound(p.value))
    ensures Outcome(g, Marked(ap, g1.(seen := seen), p, source, LUCKY), Then(make, m, p, source), Choose(p, source, c))
  {
    if p.Some? { var l' := ap(g1.live, p.value, source, LUCKY); }
  }

  lemma NamedIsSound(cfg: Config, name: Option<string>)
    requires AllSound(cfg)
    ensures Named(cfg, name).Some? ==> Sound(Named(cfg, name).value)
  {
  }

  lemma PlannedIsSound(cfg: Config, plan: Option<string>)
    requires AllSound(cfg)
    ensures ForPlan(cfg, plan).Some? ==> Sound(ForPlan(cfg, plan).value)
  {
  }

  lemma ModeBranchOutcome(ap: Applier, make: Maker, cfg: Config, g: Gui)
    requires Makes(ap, make) && AllSound(cfg) && Started(g)
    ensures Outcome(g, ModeBranch(ap, cfg, g, LUCKY), AfterMode(make, cfg, g),
                    Choose(ModePending(cfg, g), ByMode, Nobody))
  {
    NamedIsSound(cfg, BoundName(cfg.bindings, g.live.hw.mode));
    MarkedOutcome(ap, make, g, g, g.live.hw, g.seen.(mode := g.live.hw.mode), Nobody, ModePending(cfg, g), ByMode);
  }

  lemma ChargerBranchOutcome(ap: Applier, make: Maker, cfg: Config, g: Gui, g1: Gui, m: Machine, w: World, c: Choice)
    requires Makes(ap, make) && AllSound(cfg) && Outcome(g, g1, m, c)
    ensures var p := ChargerPending(cfg, g1, w);
            Outcome(g, ChargerBranch(ap, cfg, g1, w, LUCKY), Then(make, m, p, ByCharger), Choose(p, ByCharger, c))
  {
    NamedIsSound(cfg, if w.onBattery then cfg.onBattery else cfg.onAc);
    var seen := g1.seen.(onBattery := Some(w.onBattery));
    MarkedOutcome(ap, make, g, g1, m, seen, c, ChargerPending(cfg, g1, w), ByCharger);
  }

  lemma PlanBranchOutcome(ap: Applier, make: Maker, cfg: Config, g: Gui, g2: Gui, m: Machine, w: World, c: Choice)
    requires Makes(ap, make) && AllSound(cfg) && Outcome(g, g2, m, c)
    ensures var p := PlanPending(cfg, g2, w);
            Outcome(g, PlanBranch(ap, cfg, g2, w, LUCKY), Then(make, m, p, ByPlan), Choose(p, ByPlan, c))
  {
    PlannedIsSound(cfg, w.plan);
    if w.plan.Some? && w.plan != g2.seen.plan {
      MarkedOutcome(ap, make, g, g2, m, g2.seen.(plan := w.plan), c, ForPlan(cfg, w.plan), ByPlan);
    }
  }

  lemma PendingLater(cfg: Config, g: Gui, g1: Gui, g2: Gui, w: World)
    requires g1.seen.onBattery == g.seen.onBattery && g2.seen.plan == g.seen.plan
    ensures ChargerPending(cfg, g1, w) == ChargerPending(cfg, g, w)
    ensures PlanPending(cfg, g2, w) == PlanPending(cfg, g, w)
  {
  }

  /** What the three branches of a tick leave when its writes land. */
  lemma BranchesOutcome(ap: Applier, make: Maker, cfg: Config, g: Gui, w: World, save: bool)
    requires Makes(ap, make) && AllSound(cfg) && Started(g)
    ensures Outcome(g, Branches(ap, cfg, g, w, Lucky(save)), AfterPlan(make, cfg, g, w), FirstTickWinner(cfg, g, w))
  {
    var g1 := ModeBranch(ap, cfg, g, LUCKY);
    var g2 := ChargerBranch(ap, cfg, g1, w, LUCKY);
    var m1, c1 := AfterMode(make, cfg, g), Choose(ModePending(cfg, g), ByMode, Nobody);
    var m2, c2 := AfterCharger(make, cfg, g, w), Choose(ChargerPending(cfg, g, w), ByCharger, c1);
    PendingLater(cfg, g, g1, g2, w);
    ModeBranchOutcome(ap, make, cfg, g);
    ChargerBranchOutcome(ap, make, cfg, g, g1, m1, w, c1);
    PlanBranchOutcome(ap, make, cfg, g, g2, m2, w, c2);
  }

  /** What they have seen, whatever landed. */
  lemma BranchesSeen(ap: Applier, cfg: Config, g: Gui, w: World, t: TickLuck)
    requires EndsInMode(ap)
    ensures var seen := Branches(ap, cfg, g, w, t).seen;
            && seen.mode == g.live.hw.mode && seen.onBattery == Some(w.onBattery)
            && (w.plan.Some? ==> seen.plan == w.plan)
  {
    var g1 := ModeBranch(ap, cfg, g, t.mode);
    var g2 := ChargerBranch(ap, cfg, g1, w, t.charger);
    ModeBranchMode(ap, cfg, g, t.mode);
    ChargerBranchMode(ap, cfg, g1, w, t.charger);
    PlanBranchMode(ap, cfg, g2, w, t.plan);
  }

  function Lucky(save: bool): TickLuck { TickLuck(LUCKY, LUCKY, LUCKY, save) }

  /** The outcome of a tick, save included. */
  ghost predicate Left(env: Env, g: Gui, g': Gui, m: Machine, c: Choice, saved: bool)
  {
    && g'.live == Live(m, false) && |m.curve| == POINTS
    && match c
       case Nobody => m == g.live.hw && g'.applied == g.applied && (!g.live.changed ==> g'.boot == g.boot)
       case Chosen(p, source) =>
         && g'.applied != [] && g'.applied[|g'.applied| - 1] == p.name
         && Sound(p) && m.mode == CUSTOM
         && (saved ==> g'.boot == File(SnapshotLines(env, m)))
  }

  lemma SavedOutcome(env: Env, g: Gui, g1: Gui, m: Machine, c: Choice, persist: bool, save: bool)
    requires Outcome(g, g1, m, c)
    ensures Left(env, g, SavedIfChanged(env, persist, g1, save), m, c, persist && save)
  {
  }

  /** With persistence on and its save landing, a tick that applied a profile leaves a
      snapshot of exactly the hardware it leaves. */
  lemma TickOutcome(env: Env, ap: Applier, make: Maker, cfg: Config, g: Gui, w: World, save: bool)
    requires Makes(ap, make) && AllSound(cfg) && Started(g)
    ensures Left(env, g, Tick(env, ap, cfg, g, w, Lucky(save)), AfterPlan(make, cfg, g, w),
                 FirstTickWinner(cfg, g, w), cfg.persist && save)
  {
    BranchesOutcome(ap, make, cfg, g, w, save);
    SavedOutcome(env, g, Branches(ap, cfg, g, w, Lucky(save)), AfterPlan(make, cfg, g, w),
                 FirstTickWinner(cfg, g, w), cfg.persist, save);
  }

  /** In the second of two ticks only custom mode can be news. */
  lemma SecondTick(env: Env, ap: Applier, make: Maker, cfg: Config, g: Gui, w: World, save: bool)
    requires EndsInMode(ap) && Makes(ap, make) && AllSound(cfg) && Started(g)
    ensures var g1 := Tick(env, ap, cfg, g, w, Lucky(save));
            && ChargerPending(cfg, g1, w) == None && PlanPending(cfg, g1, w) == None
            && ModePending(cfg, g1) == (if Overridden(cfg, g, w) then ForMode(cfg, CUSTOM) else None)
  {
    var g1 := Tick(env, ap, cfg, g, w, Lucky(save));
    BranchesSeen(ap, cfg, g, w, Lucky(save));
    TickOutcome(env, ap, make, cfg, g, w, save);
    SecondTickPending(cfg, g, g1, w);
  }

  lemma SecondTickPending(cfg: Config, g: Gui, g1: Gui, w: World)
    requires g1.seen.mode == g.live.hw.mode && g1.seen.onBattery == Some(w.onBattery)
    requires w.plan.Some? ==> g1.seen.plan == w.plan
    requires g1.live.hw.mode == if FirstTickWinner(cfg, g, w).Chosen? then CUSTOM else g.live.hw.mode
    ensures ChargerPending(cfg, g1, w) == None && PlanPending(cfg, g1, w) == None
    ensures ModePending(cfg, g1) == (if Overridden(cfg, g, w) then ForMode(cfg, CUSTOM) else None)
  {
  }

  lemma LeftTwice(env: Env, g: Gui, g1: Gui, g2: Gui, m1: Machine, m2: Machine, c1: Choice, c2: Choice, saved: bool)
    requires Left(env, g, g1, m1, c1, saved) && Left(env, g1, g2, m2, c2, saved)
    ensures Left(env, g, g2, m2, if c2.Chosen? then c2 else c1, saved)
  {
  }

  lemma TwoTicksOutcome(env: Env, ap: Applier, make: Maker, cfg: Config, g: Gui, w: World, save: bool)
    requires EndsInMode(ap) && Makes(ap, make) && AllSound(cfg) && Started(g)
    ensures var end := Tick(env, ap, cfg, Tick(env, ap, cfg, g, w, Lucky(save)), w, Lucky(save));
            Left(env, g, end, EndMachine(make, cfg, g, w), Winner(cfg, g, w), cfg.persist && save)
  {
    var g1 := Tick(env, ap, cfg, g, w, Lucky(save));
    var m1, c1 := AfterPlan(make, cfg, g, w), FirstTickWinner(cfg, g, w);
    var m2, c2 := AfterPlan(make, cfg, g1, w), FirstTickWinner(cfg, g1, w);
    TickOutcome(env, ap, make, cfg, g, w, save);
    TickOutcome(env, ap, make, cfg, g1, w, save);
    SecondTick(env, ap, make, cfg, g, w, save);
    LeftTwice(env, g, g1, Tick(env, ap, cfg, g1, w, Lucky(save)), m1, m2, c1, c2, cfg.persist && save);
  }

  // ---- on the hardware ----

  function MakerOf(env: Env): Maker
  {
    (m: Machine, p: Profile, source: Source) => if Sound(p) then Programmed(env, m, p, source) else m
  }

  lemma ProfilesAreMade(env: Env)
    ensures Makes(ApplierOf(env), MakerOf(env))
  {
    forall l: Live, p: Profile, source: Source | Sound(p) && |l.hw.curve| == POINTS
      ensures var m := MakerOf(env)(l.hw, p, source);
              ApplierOf(env)(l, p, source, LUCKY) == Live(m, true) && |m.curve| == POINTS && m.mode == CUSTOM
    {
      ProfileIsProgrammed(env, l, p, source);
    }
  }

  function TwoTicks(env: Env, cfg: Config, g: Gui, w: World, save: bool): Gui
  {
    Ticks(env, ApplierOf(env), cfg, g, w, [Lucky(save), Lucky(save)])
  }

  lemma TwoTicksAreTicks(env: Env, ap: Applier, cfg: Config, g: Gui, w: World, t: TickLuck)
    ensures Ticks(env, ap, cfg, g, w, [t, t]) == Tick(env, ap, cfg, Tick(env, ap, cfg, g, w, t), w, t)
  {
    var g1 := Tick(env, ap, cfg, g, w, t);
    assert [t, t][1..] == [t];
    assert Ticks(env, ap, cfg, g1, w, [t]) == Ticks(env, ap, cfg, Tick(env, ap, cfg, g1, w, t), w, []);
  }

  /** The hardware after two ticks, and so for good, spelled out: untouched if nothing was
      pending, and otherwise what each pending profile in turn makes of it, the winner
      last, with boot.conf a snapshot of it. */
  lemma WinnerTakesAll(env: Env, cfg: Config, g: Gui, w: World, save: bool)
    requires AllSound(cfg) && Started(g)
    ensures var end, c := TwoTicks(env, cfg, g, w, save), Winner(cfg, g, w);
            && end.live.hw == EndMachine(MakerOf(env), cfg, g, w)
            && if c.Nobody? then end.live.hw == g.live.hw && end.applied == g.applied
               else
                 && end.applied != [] && end.applied[|end.applied| - 1] == c.p.name
                 && (cfg.persist && save ==> end.boot == File(SnapshotLines(env, end.live.hw)))
  {
    ProfilesEndInMode(env);
    ProfilesAreMade(env);
    TwoTicksOutcome(env, ApplierOf(env), MakerOf(env), cfg, g, w, save);
    TwoTicksAreTicks(env, ApplierOf(env), cfg, g, w, Lucky(save));
  }

  // ---- what the driver knew when it clamped ----

  predicate Selects(p: Profile, source: Source) { source != ByMode && p.powermode != 0 }

  /** The driver learns of custom mode when it is forced, which is unless the machine was
      in it and the profile selected nothing else. */
  function KnownAfter(known: int, mode: int, p: Option<Profile>, source: Source): int
  {
    if p.None? || (mode == CUSTOM && !Selects(p.value, source)) then known else CUSTOM
  }

  function ModeAfter(mode: int, p: Option<Profile>): int { if p.Some? then CUSTOM else mode }

  /** The mode the driver knew before the winner was applied. */
  function KnownBefore(cfg: Config, g: Gui, w: World): int
  {
    var hw, byMode := g.live.hw, ModePending(cfg, g);
    var known1 := KnownAfter(hw.known, hw.mode, byMode, ByMode);
    var known2 := KnownAfter(known1, ModeAfter(hw.mode, byMode), ChargerPending(cfg, g, w), ByCharger);
    if Overridden(cfg, g, w) then CUSTOM
    else if PlanPending(cfg, g, w).Some? then known2
    else if ChargerPending(cfg, g, w).Some? then known1
    else hw.known
  }

  /** The mode whose ranges clamped the winner's limits: the one it selected itself, or
      the one the driver knew. */
  function WinnerKnown(cfg: Config, g: Gui, w: World): int
  {
    var c := Winner(cfg, g, w);
    if c.Chosen? && Selects(c.p, c.source) then c.p.powermode else KnownBefore(cfg, g, w)
  }

  /** The machine just before the winner is applied. */
  function BeforeWinner(make: Maker, cfg: Config, g: Gui, w: World): Machine
  {
    if Overridden(cfg, g, w) then AfterPlan(make, cfg, g, w)
    else if PlanPending(cfg, g, w).Some? then AfterCharger(make, cfg, g, w)
    else if ChargerPending(cfg, g, w).Some? then AfterMode(make, cfg, g)
    else g.live.hw
  }

  lemma WinnerIsLast(make: Maker, cfg: Config, g: Gui, w: World)
    requires Winner(cfg, g, w).Chosen?
    ensures var c := Winner(cfg, g, w);
            EndMachine(make, cfg, g, w) == make(BeforeWinner(make, cfg, g, w), c.p, c.source)
  {
  }

  /** What an application does to the mode, to what the driver knows of it and to the
      coupling, as far as the winner's limits depend on them. */
  ghost predicate Tracks(make: Maker)
  {
    forall m, p, source | Sound(p) :: var m' := make(m, p, source);
      && m'.mode == CUSTOM && m'.coupling == m.coupling
      && m'.known == KnownAfter(m.known, m.mode, Some(p), source)
  }

  lemma ThenTracks(make: Maker, m: Machine, p: Option<Profile>, source: Source)
    requires Tracks(make) && (p.Some? ==> Sound(p.value))
    ensures var m' := Then(make, m, p, source);
            && m'.mode == ModeAfter(m.mode, p) && m'.coupling == m.coupling
            && m'.known == KnownAfter(m.known, m.mode, p, source)
  {
  }

  lemma MakerTracks(env: Env)
    ensures Tracks(MakerOf(env))
  {
  }

  lemma PendingAreSound(cfg: Config, g: Gui, w: World)
    requires AllSound(cfg)
    ensures ModePending(cfg, g).Some? ==> Sound(ModePending(cfg, g).value)
    ensures ChargerPending(cfg, g, w).Some? ==> Sound(ChargerPending(cfg, g, w).value)
    ensures PlanPending(cfg, g, w).Some? ==> Sound(PlanPending(cfg, g, w).value)
  {
    NamedIsSound(cfg, BoundName(cfg.bindings, g.live.hw.mode));
    NamedIsSound(cfg, if w.onBattery then cfg.onBattery else cfg.onAc);
    PlannedIsSound(cfg, w.plan);
  }

  lemma AfterChargerTracks(make: Maker, cfg: Config, g: Gui, w: World)
    requires Tracks(make) && AllSound(cfg)
    ensures var hw, m, byMode := g.live.hw, AfterCharger(make, cfg, g, w), ModePending(cfg, g);
            var known, mode := KnownAfter(hw.known, hw.mode, byMode, ByMode), ModeAfter(hw.mode, byMode);
            && m.known == KnownAfter(known, mode, ChargerPending(cfg, g, w), ByCharger)
            && m.mode == ModeAfter(mode, ChargerPending(cfg, g, w)) && m.coupling == hw.coupling
            && AfterMode(make, cfg, g).known == known && AfterMode(make, cfg, g).coupling == hw.coupling
  {
    PendingAreSound(cfg, g, w);
    ThenTracks(make, g.live.hw, ModePending(cfg, g), ByMode);
    ThenTracks(make, AfterMode(make, cfg, g), ChargerPending(cfg, g, w), ByCharger);
  }

  /** Applied from another mode, the first tick's profiles leave the driver knowing
      custom mode. */
  lemma OverriddenKnowsCustom(make: Maker, cfg: Config, g: Gui, w: World)
    requires Tracks(make) && AllSound(cfg) && Overridden(cfg, g, w)
    ensures AfterPlan(make, cfg, g, w).known == CUSTOM && AfterPlan(make, cfg, g, w).coupling == g.live.hw.coupling
  {
    PendingAreSound(cfg, g, w);
    AfterChargerTracks(make, cfg, g, w);
    ThenTracks(make, AfterCharger(make, cfg, g, w), PlanPending(cfg, g, w), ByPlan);
  }

  lemma BeforeWinnerTracks(make: Maker, cfg: Config, g: Gui, w: World)
    requires Tracks(make) && AllSound(cfg)
    ensures var m := BeforeWinner(make, cfg, g, w);
            m.known == KnownBefore(cfg, g, w) && m.coupling == g.live.hw.coupling
  {
    AfterChargerTracks(make, cfg, g, w);
    if Overridden(cfg, g, w) { OverriddenKnowsCustom(make, cfg, g, w); }
  }

  lemma WinnerIsSound(cfg: Config, g: Gui, w: World)
    requires AllSound(cfg)
    ensures Winner(cfg, g, w).Chosen? ==> Sound(Winner(cfg, g, w).p)
  {
    NamedIsSound(cfg, BoundName(cfg.bindings, CUSTOM));
    PendingAreSound(cfg, g, w);
  }

  /** The answer the driver gives to one of the winner's limits. */
  function Answer(env: Env, cfg: Config, g: Gui, w: World, feature: u32, request: i32): Option<i32>
  {
    Limit(TablesIn(env, WinnerKnown(cfg, g, w)), feature, request)
  }

  /** The firmware limits two ticks leave, from the profile, the ranges of the mode the
      driver knew, and the coupling, whatever the limits were; a refused request alone
      leaves something of the machine before. */
  lemma WinnerLimits(env: Env, cfg: Config, g: Gui, w: World)
    requires AllSound(cfg) && Winner(cfg, g, w).Chosen?
    ensures var p, l := Winner(cfg, g, w).p, EndMachine(MakerOf(env), cfg, g, w).firmware;
            var c1 := Answer(env, cfg, g, w, CPU_LONG_TERM, p.pl1);
            var c2 := Answer(env, cfg, g, w, CPU_SHORT_TERM, p.pl2);
            && l == FirmwareReplayed(env, WinnerKnown(cfg, g, w), BeforeWinner(MakerOf(env), cfg, g, w).firmware,
                                     g.live.hw.coupling, Limits(p.pl1, p.pl2))
            && (c1.Some? && c2.Some? ==>
                  l == Limits(if g.live.hw.coupling then Min(c1.value, c2.value) else c1.value, c2.value))
  {
    var c, m := Winner(cfg, g, w), BeforeWinner(MakerOf(env), cfg, g, w);
    WinnerIsLast(MakerOf(env), cfg, g, w);
    WinnerIsSound(cfg, g, w);
    MakerTracks(env);
    BeforeWinnerTracks(MakerOf(env), cfg, g, w);
    ProgrammedLimits(env, m, c.p, c.source);
    if Answer(env, cfg, g, w, CPU_LONG_TERM, c.p.pl1).Some? && Answer(env, cfg, g, w, CPU_SHORT_TERM, c.p.pl2).Some? {
      PowerForgetsThePast(env, WinnerKnown(cfg, g, w), m.firmware, m.coupling, Limits(c.p.pl1, c.p.pl2));
    }
  }

  lemma ProgrammedLimits(env: Env, m: Machine, p: Profile, source: Source)
    requires Sound(p)
    ensures MakerOf(env)(m, p, source).firmware
         == FirmwareReplayed(env, if Selects(p, source) then p.powermode else m.known, m.firmware, m.coupling,
                             Limits(p.pl1, p.pl2))
  {
  }

  // ---- after a reboot ----

  /** A fan whose speeds all survive: a maximum in whole hundreds that the driver's byte
      can carry. */
  predicate FanIsExact(env: Env) { FanMax(env) <= 25500 && FanMax(env) % 100 == 0 }

  lemma SpeedSettles(env: Env, temp: int, rpm: int)
    requires FanIsExact(env) && 0 <= temp <= 127
    ensures Settled(env, Trip(temp, Speed(env, rpm)))
  {
    var m, p := FanMax(env), RpmToPwm(rpm, FanMax(env));
    StoredIsCeil(env.maxRpm, p);
    assert m / 100 * 25500 == 255 * m;
    DivUnique(m / 100 * 25500, m, 255);
    RpmAdjunction(p, m / 100, m);
    InRangePointsSettle(env, Trip(temp, Speed(env, rpm)));
  }

  /** Every point of the profile's curve, as the driver stores it, comes back. */
  predicate CurveRestorable(env: Env, p: Profile)
    requires Sound(p)
  {
    forall i: nat | i < POINTS :: PointRestorable(env, i, CurveOf(env, p.curve)[i])
  }

  /** On an exact fan that is every profile. */
  lemma ExactFanRestoresCurve(env: Env, p: Profile)
    requires FanIsExact(env) && Sound(p)
    ensures CurveRestorable(env, p)
  {
    forall i: nat | i < POINTS
      ensures PointRestorable(env, i, CurveOf(env, p.curve)[i])
    {
      assert p.curve[i] in p.curve;
      SpeedSettles(env, p.curve[i].0, p.curve[i].1);
    }
  }

  /** Of what a profile left on the hardware, the mode always comes back from a snapshot;
      everything does exactly when full speed is off, the curve is one the codec keeps
      and the firmware limits are restorable. */
  lemma ProgrammedIsRestorableIff(env: Env, m: Machine, p: Profile, source: Source, coupled: bool)
    requires Sound(p)
    ensures var hw := Programmed(env, m, p, source);
            && Plausible(hw)
            && (RestorableFrom(env, hw, coupled)
                <==> && !(source == ByPlan && p.fanFullspeed)
                     && CurveRestorable(env, p) && LimitsRestorable(env, hw.firmware, coupled))
  {
  }

  /** Replaying boot.conf gives exactly the hardware, from every state a machine whose
      driver starts with this coupling may boot in. */
  ghost predicate SurvivesReboot(env: Env, g: Gui, coupled: bool)
  {
    forall start: State | |start.m.curve| == POINTS && start.m.coupling == coupled ::
      Same(Replayed(env, start, Lines(g.boot)).m, g.live.hw)
  }

  /** From a change outside to the next boot: what two ticks left survives a reboot if and
      only if the winner left full speed off, its curve is one the codec keeps, and the
      limits it ended with are restorable under the coupling at boot. All three are about
      the machine, the profiles and the world before the first tick. */
  lemma WinnerSurvivesRebootIff(env: Env, cfg: Config, g: Gui, w: World, boots: bool)
    requires AllSound(cfg) && Started(g) && cfg.persist && Winner(cfg, g, w).Chosen?
    ensures Sound(Winner(cfg, g, w).p)
    ensures var c := Winner(cfg, g, w);
            SurvivesReboot(env, TwoTicks(env, cfg, g, w, true), boots)
            <==> && !(c.source == ByPlan && c.p.fanFullspeed)
                 && CurveRestorable(env, c.p)
                 && LimitsRestorable(env, EndMachine(MakerOf(env), cfg, g, w).firmware, boots)
  {
    var c := Winner(cfg, g, w);
    WinnerIsSound(cfg, g, w);
    WinnerTakesAll(env, cfg, g, w, true);
    WinnerIsLast(MakerOf(env), cfg, g, w);
    var m := BeforeWinner(MakerOf(env), cfg, g, w);
    SnapshotSurvivesIff(env, m, c.p, c.source, boots);
    SurvivesIff(env, TwoTicks(env, cfg, g, w, true), Programmed(env, m, c.p, c.source), boots);
  }

  lemma SurvivesIff(env: Env, g: Gui, hw: Machine, coupled: bool)
    requires g.live.hw == hw && g.boot == File(SnapshotLines(env, hw))
    ensures SurvivesReboot(env, g, coupled) <==> RestoredFrom(env, hw, coupled)
  {
    assert forall start: State :: ReplayOf(env, hw, start) == Replayed(env, start, Lines(g.boot));
  }

  lemma SnapshotSurvivesIff(env: Env, m: Machine, p: Profile, source: Source, coupled: bool)
    requires Sound(p)
    ensures var hw := Programmed(env, m, p, source);
            RestoredFrom(env, hw, coupled)
            <==> && !(source == ByPlan && p.fanFullspeed) && CurveRestorable(env, p)
                 && LimitsRestorable(env, hw.firmware, coupled)
  {
    ProgrammedIsRestorableIff(env, m, p, source, coupled);
    ReplayRestoresFromIff(env, Programmed(env, m, p, source), coupled);
  }

  /** The same on the driver's two answers: when both requests are answered, in the mode
      the driver knew, what they make of the limits survives if and only if custom mode's
      own ranges and the coupling at boot leave it alone. */
  lemma AnsweredWinnerSurvivesIff(env: Env, cfg: Config, g: Gui, w: World, boots: bool)
    requires AllSound(cfg) && Started(g) && cfg.persist && Winner(cfg, g, w).Chosen? && FanIsExact(env)
    requires Answer(env, cfg, g, w, CPU_LONG_TERM, Winner(cfg, g, w).p.pl1).Some?
    requires Answer(env, cfg, g, w, CPU_SHORT_TERM, Winner(cfg, g, w).p.pl2).Some?
    ensures var c := Winner(cfg, g, w);
            var c1 := Answer(env, cfg, g, w, CPU_LONG_TERM, c.p.pl1).value;
            var c2 := Answer(env, cfg, g, w, CPU_SHORT_TERM, c.p.pl2).value;
            var l := Limits(if g.live.hw.coupling then Min(c1, c2) else c1, c2);
            SurvivesReboot(env, TwoTicks(env, cfg, g, w, true), boots)
            <==> !(c.source == ByPlan && c.p.fanFullspeed) && LimitsRestorable(env, l, boots)
  {
    WinnerSurvivesRebootIff(env, cfg, g, w, boots);
    WinnerLimits(env, cfg, g, w);
    ExactFanRestoresCurve(env, Winner(cfg, g, w).p);
  }

  /** With Lenovo's ranges ignored, limits asked for in order and within a byte always
      survive. */
  lemma IgnoringCapdataSurvivesIff(env: Env, cfg: Config, g: Gui, w: World, boots: bool)
    requires AllSound(cfg) && Started(g) && cfg.persist && Winner(cfg, g, w).Chosen? && FanIsExact(env)
    requires env.ignoreCapdata && 1 <= Winner(cfg, g, w).p.pl1 <= Winner(cfg, g, w).p.pl2 <= 255
    ensures var c := Winner(cfg, g, w);
            SurvivesReboot(env, TwoTicks(env, cfg, g, w, true), boots) <==> !(c.source == ByPlan && c.p.fanFullspeed)
  {
    AnsweredWinnerSurvivesIff(env, cfg, g, w, boots);
  }

  // ---- a profile that does not survive ----

  /** Ranges as a firmware may advertise them: PL1 up to 130 W in performance mode, up to
      60 W in custom mode. */
  function NarrowerInCustom(): seq<Capability>
  {
    [Capability(0x01020300, 1, 1, 26, 130), Capability(0x0102FF00, 1, 1, 26, 60),
     Capability(0x01010300, 1, 1, 55, 150), Capability(0x0101FF00, 1, 1, 55, 150)]
  }

  function NarrowEnv(): Env { Env(NarrowerInCustom(), [], false, 5400, (mode, i) => Trip(50, 10)) }

  function Performance(): Profile
  {
    Profile("P", seq(POINTS, i => (50, 1500)), 100, 120, 8, 3, false, None, false)
  }

  function PerformanceOnBattery(): Config { Config([Performance()], [], Some("P"), None, true) }

  /** Balanced mode on the charger, everything seen. */
  function Plugged(): Gui
  {
    Gui(Live(Machine(2, 2, false, Rapl(0, 0, 0), Limits(30, 55), false, seq(POINTS, i => Trip(50, 10))), false),
        Seen(2, Some(false), None), [], "")
  }

  /** A profile that selects performance mode has its PL1 of 100 W clamped by that mode's
      range, before custom mode is forced; after a reboot custom mode's range makes it
      60 W. */
  lemma ClampedInAnotherModeIsLost()
    ensures var env, cfg, g, w := NarrowEnv(), PerformanceOnBattery(), Plugged(), World(true, None);
            && Winner(cfg, g, w) == Chosen(Performance(), ByCharger) && WinnerKnown(cfg, g, w) == 3
            && EndMachine(MakerOf(env), cfg, g, w).firmware == Limits(100, 120)
            && Limit(TablesIn(env, CUSTOM), CPU_LONG_TERM, 100) == Some(60)
            && !SurvivesReboot(env, TwoTicks(env, cfg, g, w, true), false)
            && !SurvivesReboot(env, TwoTicks(env, cfg, g, w, true), true)
  {
    var env, cfg, g, w := NarrowEnv(), PerformanceOnBattery(), Plugged(), World(true, None);
    PerformanceWins();
    NarrowAnswers();
    WinnerLimits(env, cfg, g, w);
    WinnerSurvivesRebootIff(env, cfg, g, w, false);
    WinnerSurvivesRebootIff(env, cfg, g, w, true);
  }

  lemma PerformanceWins()
    ensures var cfg, g, w := PerformanceOnBattery(), Plugged(), World(true, None);
            AllSound(cfg) && Started(g) && Winner(cfg, g, w) == Chosen(Performance(), ByCharger)
  {
    var cfg, g, w := PerformanceOnBattery(), Plugged(), World(true, None);
    assert Sound(Performance());
    FirstNamedIs(cfg.profiles, "P", 0);
    assert ChargerPending(cfg, g, w) == Some(Performance());
    assert ForMode(cfg, CUSTOM) == None;
  }

  lemma NarrowAnswers()
    ensures Limit(TablesIn(NarrowEnv(), 3), CPU_LONG_TERM, 100) == Some(100)
    ensures Limit(TablesIn(NarrowEnv(), 3), CPU_SHORT_TERM, 120) == Some(120)
    ensures Limit(TablesIn(NarrowEnv(), CUSTOM), CPU_LONG_TERM, 100) == Some(60)
  {
    var cs := NarrowerInCustom();
    assert FirstCapability(cs, CPU_LONG_TERM, 3) == Some(cs[0]);
    assert FirstCapability(cs[1..], CPU_LONG_TERM, CUSTOM) == Some(cs[1]);
    assert FirstCapability(cs[1..], CPU_SHORT_TERM, 3) == FirstCapability(cs[2..], CPU_SHORT_TERM, 3);
    assert FirstCapability(cs[2..], CPU_SHORT_TERM, 3) == Some(cs[2]);
    SteppedIsNearest(cs[0], 100);
    SteppedIsNearest(cs[1], 100);
    SteppedIsNearest(cs[2], 120);
  }

  // ---- why three ticks when writes may fail ----

  lemma LostWriteCostsThirdTick(env: Env, ap: Applier, cfg: Config, g: Gui, w: World, p: Profile)
    requires EndsInMode(ap) && g.seen.mode == g.live.hw.mode && w.plan.None?
    requires ap(g.live, p, ByCharger, LUCKY.(force := false)).hw.mode == p.powermode
    requires g.seen.onBattery != Some(w.onBattery) && ForPower(cfg, w.onBattery) == Some(p)
    requires IsMode(p.powermode) && p.powermode != CUSTOM && p.powermode != g.live.hw.mode
    requires ForMode(cfg, p.powermode).Some? && ForMode(cfg, CUSTOM).Some?
    ensures var lost := TickLuck(LUCKY, LUCKY.(force := false), LUCKY, true);
            var g1 := Tick(env, ap, cfg, g, w, lost);
            var g2 := Tick(env, ap, cfg, g1, w, Lucky(true));
            var g3 := Tick(env, ap, cfg, g2, w, Lucky(true));
            g1.applied != g.applied && g2.applied != g1.applied && g3.applied != g2.applied
  {
    var lost := TickLuck(LUCKY, LUCKY.(force := false), LUCKY, true);
    var g1 := Tick(env, ap, cfg, g, w, lost);
    BoundModeApplies(env, ap, cfg, g1, w, Lucky(true));
    var g2 := Tick(env, ap, cfg, g1, w, Lucky(true));
    BoundModeApplies(env, ap, cfg, g2, w, Lucky(true));
  }

  lemma BoundModeApplies(env: Env, ap: Applier, cfg: Config, g: Gui, w: World, t: TickLuck)
    requires EndsInMode(ap) && g.seen.mode != g.live.hw.mode && ForMode(cfg, g.live.hw.mode).Some?
    requires g.seen.onBattery == Some(w.onBattery) && w.plan.None? && Lands(t)
    ensures var g' := Tick(env, ap, cfg, g, w, t);
            && g'.applied != g.applied && g'.live.hw.mode == CUSTOM
            && g'.seen.mode == g.live.hw.mode && g'.seen.onBattery == g.seen.onBattery
  {
    var mode := ap(g.live, ForMode(cfg, g.live.hw.mode).value, ByMode, t.mode).hw.mode;
  }

  /** The bound of three is reached: a charger profile selects a mode but the write
      forcing custom mode is lost; the profile bound to that mode then forces it; and the
      profile bound to custom mode follows. */
  lemma ThirdTickIsReached(env: Env, cfg: Config, g: Gui, w: World, p: Profile)
    requires g.seen.mode == g.live.hw.mode && w.plan.None?
    requires g.seen.onBattery != Some(w.onBattery) && ForPower(cfg, w.onBattery) == Some(p)
    requires IsMode(p.powermode) && p.powermode != CUSTOM && p.powermode != g.live.hw.mode
    requires ForMode(cfg, p.powermode).Some? && ForMode(cfg, CUSTOM).Some?
    ensures var ap := ApplierOf(env);
            var g1 := Tick(env, ap, cfg, g, w, TickLuck(LUCKY, LUCKY.(force := false), LUCKY, true));
            var g2 := Tick(env, ap, cfg, g1, w, Lucky(true));
            var g3 := Tick(env, ap, cfg, g2, w, Lucky(true));
            g1.applied != g.applied && g2.applied != g1.applied && g3.applied != g2.applied
  {
    ProfilesEndInMode(env);
    LostForceStaysSelected(env, g.live, p);
    LostWriteCostsThirdTick(env, ApplierOf(env), cfg, g, w, p);
  }

  lemma LostForceStaysSelected(env: Env, g: Live, p: Profile)
    requires IsMode(p.powermode)
    ensures ApplierOf(env)(g, p, ByCharger, LUCKY.(force := false)).hw.mode == p.powermode
  {
    ApplicationEndsInMode(env, g, p, ByCharger, LUCKY.(force := false));
    GuiModeWrite(env, g, p.powermode);
  }
}
