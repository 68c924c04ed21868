/** The GUI's poll loop: it applies profiles when the power mode, the charger or the
    power plan changes, and each application changes the mode it watches. */
module PollLoop {
  import opened MachineInts
  import opened PowerLimits
  import opened BootText
  import opened BootReplay
  import opened BootRestore
  import opened Profiles
  import opened GuiHardware

  /** What the loop last reacted to. */
  datatype Seen = Seen(mode: int, onBattery: Option<bool>, plan: Option<string>)

  /** What changes only outside the program. */
  datatype World = World(onBattery: bool, plan: Option<string>)

  /** The program and everything it touches: `applied` lists the profiles applied so
      far, `boot` is the text of boot.conf. */
  datatype Gui = Gui(live: Live, seen: Seen, applied: seq<string>, boot: string)

  /** Which writes of one tick get through, and whether its save does. */
  datatype TickLuck = TickLuck(mode: Luck, charger: Luck, plan: Luck, save: bool)

  predicate Lands(t: TickLuck) { t.mode == LUCKY && t.charger == LUCKY && t.plan == LUCKY }

  function Named(cfg: Config, name: Option<string>): Option<Profile>
  {
    if name.None? then None
    else
      match FirstNamed(cfg.profiles, name.value)
      case None => None
      case Some(i) => Some(cfg.profiles[i])
  }

  function ForMode(cfg: Config, mode: int): Option<Profile> { Named(cfg, BoundName(cfg.bindings, mode)) }

  function ForPower(cfg: Config, onBattery: bool): Option<Profile>
  {
    Named(cfg, if onBattery then cfg.onBattery else cfg.onAc)
  }

  function ForPlan(cfg: Config, plan: Option<string>): Option<Profile>
  {
    match Position(cfg.profiles, (p: Profile) => p.powerPlan == plan)
    case None => None
    case Some(i) => Some(cfg.profiles[i])
  }

  // ---- one tick ----

  /** How a profile is applied to the hardware. The loop does not look inside. */
  type Applier = (Live, Profile, Source, Luck) -> Live

  function ApplierOf(env: Env): Applier
  {
    (g: Live, p: Profile, source: Source, luck: Luck) => Applied(env, g, p, source, luck)
  }

  function Marked(ap: Applier, g: Gui, p: Option<Profile>, source: Source, luck: Luck): Gui
  {
    match p
    case None => g
    case Some(p) => g.(live := ap(g.live, p, source, luck), applied := g.applied + [p.name])
  }

  function ModeBranch(ap: Applier, cfg: Config, g: Gui, luck: Luck): Gui
  {
    var mode := g.live.hw.mode;
    if mode == g.seen.mode then g
    else Marked(ap, g.(seen := g.seen.(mode := mode)), ForMode(cfg, mode), ByMode, luck)
  }

  function ChargerBranch(ap: Applier, cfg: Config, g: Gui, w: World, luck: Luck): Gui
  {
    if g.seen.onBattery == Some(w.onBattery) then g
    else Marked(ap, g.(seen := g.seen.(onBattery := Some(w.onBattery))), ForPower(cfg, w.onBattery), ByCharger, luck)
  }

  function PlanBranch(ap: Applier, cfg: Config, g: Gui, w: World, luck: Luck): Gui
  {
    if w.plan.None? || w.plan == g.seen.plan then g
    else Marked(ap, g.(seen := g.seen.(plan := w.plan)), ForPlan(cfg, w.plan), ByPlan, luck)
  }

  function Branches(ap: Applier, cfg: Config, g: Gui, w: World, t: TickLuck): Gui
  {
    PlanBranch(ap, cfg, ChargerBranch(ap, cfg, ModeBranch(ap, cfg, g, t.mode), w, t.charger), w, t.plan)
  }

  /** The flag is taken before persistence is looked at. */
  function SavedIfChanged(env: Env, persist: bool, g: Gui, ok: bool): Gui
  {
    if !g.live.changed then g
    else g.(live := g.live.(changed := false),
            boot := if persist && ok then File(SnapshotLines(env, g.live.hw)) else g.boot)
  }

  function Tick(env: Env, ap: Applier, cfg: Config, g: Gui, w: World, t: TickLuck): Gui
  {
    SavedIfChanged(env, cfg.persist, Branches(ap, cfg, g, w, t), t.save)
  }

  class Poll {
    const hw: Hw
    var cfg: Config
    var lastMode: int
    var lastBatt: Option<bool>
    var lastPlan: Option<string>
    var lastApplied: Option<string>
    var boot: string
    ghost var applied: seq<string>

    ghost function Value(): Gui
      reads this, hw
    {
      Gui(hw.Value(), Seen(lastMode, lastBatt, lastPlan), applied, boot)
    }

    /** The baseline is what the machine is doing now. */
    constructor (hw: Hw, cfg: Config, w: World, boot: string)
      ensures this.hw == hw && this.cfg == cfg && Recorded()
      ensures Value() == Gui(hw.Value(), Seen(hw.m.mode, Some(w.onBattery), w.plan), [], boot)
    {
      this.hw, this.cfg, this.boot := hw, cfg, boot;
      lastMode, lastBatt, lastPlan := hw.m.mode, Some(w.onBattery), w.plan;
      lastApplied, applied := None, [];
    }

    /** The profile recorded as last applied is the last one applied. */
    ghost predicate Recorded()
      reads this
    {
      applied != [] ==> lastApplied == Some(applied[|applied| - 1])
    }

    method ApplyIfAny(p: Option<Profile>, source: Source, luck: Luck)
      requires Recorded()
      modifies this`lastApplied, this`applied, hw
      ensures Recorded()
      ensures Value() == Marked(ApplierOf(hw.env), old(Value()), p, source, luck)
    {
      if p.Some? {
        hw.Apply(p.value, source, luck);
        lastApplied, applied := Some(p.value.name), applied + [p.value.name];
      }
    }

    method ReactToMode(luck: Luck)
      requires Recorded()
      modifies this`lastMode, this`lastApplied, this`applied, hw
      ensures Recorded()
      ensures Value() == ModeBranch(ApplierOf(hw.env), cfg, old(Value()), luck)
    {
      var mode := hw.m.mode;
      if mode != lastMode {
        lastMode := mode;
        ApplyIfAny(ForMode(cfg, mode), ByMode, luck);
      }
    }

    method ReactToCharger(w: World, luck: Luck)
      requires Recorded()
      modifies this`lastBatt, this`lastApplied, this`applied, hw
      ensures Recorded()
      ensures Value() == ChargerBranch(ApplierOf(hw.env), cfg, old(Value()), w, luck)
    {
      if lastBatt != Some(w.onBattery) {
        lastBatt := Some(w.onBattery);
        ApplyIfAny(ForPower(cfg, w.onBattery), ByCharger, luck);
      }
    }

    method ReactToPlan(w: World, luck: Luck)
      requires Recorded()
      modifies this`lastPlan, this`lastApplied, this`applied, hw
      ensures Recorded()
      ensures Value() == PlanBranch(ApplierOf(hw.env), cfg, old(Value()), w, luck)
    {
      if w.plan.Some? && w.plan != lastPlan {
        lastPlan := w.plan;
        ApplyIfAny(ForPlan(cfg, w.plan), ByPlan, luck);
      }
    }

    method PollTick(w: World, t: TickLuck)
      requires Recorded()
      modifies this`lastMode, this`lastBatt, this`lastPlan, this`lastApplied, this`applied, this`boot, hw
      ensures Recorded()
      ensures Value() == Tick(hw.env, ApplierOf(hw.env), cfg, old(Value()), w, t)
    {
      ReactToMode(t.mode);
      ReactToCharger(w, t.charger);
      ReactToPlan(w, t.plan);
      SaveIfChanged(t.save);
    }

    /** Also what the program does on its way out. */
    method SaveIfChanged(ok: bool)
      modifies this`boot, hw
      ensures Value() == SavedIfChanged(hw.env, cfg.persist, old(Value()), ok)
    {
      var changed := hw.TakeChanged();
      if changed && cfg.persist && ok {
        boot := BootSave(hw.env, hw.m);
      }
    }
  }

  function Undangled(cfg: Config): Config
  {
    cfg.(onBattery := if Dangles(cfg, cfg.onBattery) then None else cfg.onBattery,
         onAc := if Dangles(cfg, cfg.onAc) then None else cfg.onAc)
  }

  /** A power source left dangling by a deleted profile is the same to every tick as a
      source bound to nothing. */
  lemma DanglingActsUnbound(env: Env, ap: Applier, cfg: Config, g: Gui, w: World, t: TickLuck)
    ensures Tick(env, ap, cfg, g, w, t) == Tick(env, ap, Undangled(cfg), g, w, t)
  {
    var c := Undangled(cfg);
    var g1 := ModeBranch(ap, cfg, g, t.mode);
    assert g1 == ModeBranch(ap, c, g, t.mode);
    assert ForPower(cfg, w.onBattery) == ForPower(c, w.onBattery);
    assert ChargerBranch(ap, cfg, g1, w, t.charger) == ChargerBranch(ap, c, g1, w, t.charger);
  }

  // ---- settling down ----

  /** 0: nothing left to react to. 1, 2: only the mode differs, and is or is not custom.
      3: the charger or the plan is news. */
  function Unrest(g: Gui, w: World): nat
  {
    if g.seen.onBattery != Some(w.onBattery) || !(w.plan.None? || g.seen.plan == w.plan) then 3
    else if g.seen.mode == g.live.hw.mode then 0
    else if g.live.hw.mode == CUSTOM then 1
    else 2
  }

  /** Any application whose forcing write lands ends in custom mode; one made for a mode
      stays in it otherwise. */
  ghost predicate EndsInMode(ap: Applier)
  {
    forall g, p, source, luck :: var mode := ap(g, p, source, luck).hw.mode;
      && (luck.force ==> mode == CUSTOM)
      && (source == ByMode && !luck.force ==> mode == g.hw.mode)
  }

  lemma ProfilesEndInMode(env: Env)
    ensures EndsInMode(ApplierOf(env))
  {
    forall g: Live, p: Profile, source: Source, luck: Luck
      ensures var mode := ApplierOf(env)(g, p, source, luck).hw.mode;
              (luck.force ==> mode == CUSTOM) && (source == ByMode && !luck.force ==> mode == g.hw.mode)
    {
      ApplicationEndsInMode(env, g, p, source, luck);
    }
  }

  /** Every tick comes closer to rest whatever fails; one whose mode writes land comes
      within one step of it. */
  lemma TickCalms(env: Env, ap: Applier, cfg: Config, g: Gui, w: World, t: TickLuck)
    requires EndsInMode(ap)
    ensures Unrest(Tick(env, ap, cfg, g, w, t), w) <= Max(Unrest(g, w) - 1, 0)
    ensures Lands(t) ==> Unrest(Tick(env, ap, cfg, g, w, t), w) <= 1
  {
    var g1 := ModeBranch(ap, cfg, g, t.mode);
    var g2 := ChargerBranch(ap, cfg, g1, w, t.charger);
    ModeBranchMode(ap, cfg, g, t.mode);
    ChargerBranchMode(ap, cfg, g1, w, t.charger);
    PlanBranchMode(ap, cfg, g2, w, t.plan);
  }

  lemma ModeBranchMode(ap: Applier, cfg: Config, g: Gui, luck: Luck)
    requires EndsInMode(ap)
    ensures var g' := ModeBranch(ap, cfg, g, luck);
            && g'.seen == g.seen.(mode := g.live.hw.mode)
            && (g'.live.hw.mode == g.live.hw.mode || g'.live.hw.mode == CUSTOM)
            && (g.seen.mode == g.live.hw.mode ==> g' == g)
            && (g' != g.(seen := g'.seen) && luck.force ==> g'.live.hw.mode == CUSTOM)
  {
    var p := ForMode(cfg, g.live.hw.mode);
    if p.Some? { var mode := ap(g.live, p.value, ByMode, luck).hw.mode; }
  }

  lemma ChargerBranchMode(ap: Applier, cfg: Config, g: Gui, w: World, luck: Luck)
    requires EndsInMode(ap)
    ensures var g' := ChargerBranch(ap, cfg, g, w, luck);
            && g'.seen == g.seen.(onBattery := Some(w.onBattery))
            && (g.seen.onBattery == Some(w.onBattery) ==> g' == g)
            && (luck.force ==> g'.live.hw.mode == CUSTOM || g'.live == g.live)
  {
    var p := ForPower(cfg, w.onBattery);
    if p.Some? { var mode := ap(g.live, p.value, ByCharger, luck).hw.mode; }
  }

  lemma PlanBranchMode(ap: Applier, cfg: Config, g: Gui, w: World, luck: Luck)
    requires EndsInMode(ap)
    ensures var g' := PlanBranch(ap, cfg, g, w, luck);
            && g'.seen == (if w.plan.Some? then g.seen.(plan := w.plan) else g.seen)
            && (w.plan.None? || g.seen.plan == w.plan ==> g' == g)
            && (luck.force ==> g'.live.hw.mode == CUSTOM || g'.live == g.live)
  {
    var p := ForPlan(cfg, w.plan);
    if p.Some? { var mode := ap(g.live, p.value, ByPlan, luck).hw.mode; }
  }

  /** At rest a tick writes nothing. */
  lemma RestingTickWritesNothing(env: Env, ap: Applier, cfg: Config, g: Gui, w: World, t: TickLuck)
    requires Unrest(g, w) == 0
    ensures var g' := Tick(env, ap, cfg, g, w, t);
            g'.live.hw == g.live.hw && g'.applied == g.applied && g'.seen == g.seen && Unrest(g', w) == 0
  {
  }

  /** Ticks while nothing happens outside. */
  function Ticks(env: Env, ap: Applier, cfg: Config, g: Gui, w: World, ts: seq<TickLuck>): Gui
    decreases |ts|
  {
    if ts == [] then g else Ticks(env, ap, cfg, Tick(env, ap, cfg, g, w, ts[0]), w, ts[1..])
  }

  lemma {:induction false} RestIsForever(env: Env, ap: Applier, cfg: Config, g: Gui, w: World, ts: seq<TickLuck>)
    requires Unrest(g, w) == 0
    ensures var g' := Ticks(env, ap, cfg, g, w, ts);
            g'.live.hw == g.live.hw && g'.applied == g.applied && g'.seen == g.seen
    decreases |ts|
  {
    if ts != [] {
      RestingTickWritesNothing(env, ap, cfg, g, w, ts[0]);
      RestIsForever(env, ap, cfg, Tick(env, ap, cfg, g, w, ts[0]), w, ts[1..]);
    }
  }

  lemma {:induction false} StopsApplying(env: Env, ap: Applier, cfg: Config, g: Gui, w: World, ts: seq<TickLuck>,
                                         k: nat)
    requires EndsInMode(ap)
    requires k <= |ts|
    requires k >= Unrest(g, w) || (k >= 2 && forall t | t in ts :: Lands(t))
    ensures var settled, end := Ticks(env, ap, cfg, g, w, ts[..k]), Ticks(env, ap, cfg, g, w, ts);
            && Unrest(settled, w) == 0
            && end.live.hw == settled.live.hw && end.applied == settled.applied
    decreases |ts|
  {
    if k == 0 {
      RestIsForever(env, ap, cfg, g, w, ts);
    } else {
      var g' := Tick(env, ap, cfg, g, w, ts[0]);
      TickCalms(env, ap, cfg, g, w, ts[0]);
      assert ts[0] in ts;
      assert forall t | t in ts[1..] :: t in ts;
      assert ts[..k][1..] == ts[1..][..k - 1];
      StopsApplying(env, ap, cfg, g', w, ts[1..], k - 1);
    }
  }

  /** Once nothing changes outside any more, at most two ticks apply profiles, and if
      mode writes may fail at most three; from then on the hardware is left alone. */
  lemma PollStops(env: Env, cfg: Config, g: Gui, w: World, ts: seq<TickLuck>, k: nat)
    requires k <= |ts| && (k >= 3 || (k >= 2 && forall t | t in ts :: Lands(t)))
    ensures var ap := ApplierOf(env);
            var settled, end := Ticks(env, ap, cfg, g, w, ts[..k]), Ticks(env, ap, cfg, g, w, ts);
            && Unrest(settled, w) == 0
            && end.live.hw == settled.live.hw && end.applied == settled.applied
  {
    ProfilesEndInMode(env);
    StopsApplying(env, ApplierOf(env), cfg, g, w, ts, k);
  }

  // ---- whole runs ----

  /** What happens to the hardware between ticks: a key or another program switches the
      mode, or the user applies something by hand, which raises the flag. */
  datatype Jump = Still | Outside(hw: Machine) | OwnWrites(hw: Machine)

  /** What happens before a tick, and the tick: the charger may have been plugged and the
      plan changed too. */
  datatype Step = Step(jump: Jump, w: World, luck: TickLuck)

  function Jumped(g: Gui, jump: Jump): Gui
  {
    match jump
    case Still => g
    case Outside(hw) => g.(live := g.live.(hw := hw))
    case OwnWrites(hw) => g.(live := Live(hw, true))
  }

  function Stepped(env: Env, ap: Applier, cfg: Config, g: Gui, s: Step): Gui
  {
    Tick(env, ap, cfg, Jumped(g, s.jump), s.w, s.luck)
  }

  function Applying(env: Env, ap: Applier, cfg: Config, g: Gui, ss: seq<Step>): nat
    decreases |ss|
  {
    if ss == [] then 0
    else
      var g' := Stepped(env, ap, cfg, g, ss[0]);
      (if g'.applied != g.applied then 1 else 0) + Applying(env, ap, cfg, g', ss[1..])
  }

  function Disturbances(w: World, ss: seq<Step>): nat
    decreases |ss|
  {
    if ss == [] then 0 else (if !ss[0].jump.Still? || ss[0].w != w then 1 else 0) + Disturbances(ss[0].w, ss[1..])
  }

  lemma {:induction false} ReactionsAreBounded(env: Env, ap: Applier, cfg: Config, g: Gui, w: World, ss: seq<Step>,
                                               cap: nat)
    requires EndsInMode(ap)
    requires cap == 3 || (cap == 2 && forall s | s in ss :: Lands(s.luck))
    ensures Applying(env, ap, cfg, g, ss) <= Min(Unrest(g, w), cap) + cap * Disturbances(w, ss)
    decreases |ss|
  {
    if ss != [] {
      var s := ss[0];
      var g1 := Jumped(g, s.jump);
      var g' := Stepped(env, ap, cfg, g, s);
      assert s in ss;
      assert forall s | s in ss[1..] :: s in ss;
      TickCalms(env, ap, cfg, g1, s.w, s.luck);
      if Unrest(g1, s.w) == 0 { RestingTickWritesNothing(env, ap, cfg, g1, s.w, s.luck); }
      ReactionsAreBounded(env, ap, cfg, g', s.w, ss[1..], cap);
    }
  }

  /** The loop never keeps itself going: over any run the ticks that apply a profile are
      at most two for each outside change when writes land, and three when they may
      fail. */
  lemma PollReactionsAreBounded(env: Env, cfg: Config, g: Gui, w: World, ss: seq<Step>, cap: nat)
    requires cap == 3 || (cap == 2 && forall s | s in ss :: Lands(s.luck))
    ensures Applying(env, ApplierOf(env), cfg, g, ss) <= Min(Unrest(g, w), cap) + cap * Disturbances(w, ss)
  {
    ProfilesEndInMode(env);
    ReactionsAreBounded(env, ApplierOf(env), cfg, g, w, ss, cap);
  }

  // ---- what boot.conf holds ----

  /** Either a save is owed, or boot.conf is a snapshot of the hardware as it is. */
  ghost predicate BootIsFresh(env: Env, cfg: Config, g: Gui)
  {
    cfg.persist && !g.live.changed ==> g.boot == File(SnapshotLines(env, g.live.hw))
  }

  /** An application raises the flag unless all it did was push limits. */
  ghost predicate Follow(ap: Applier)
  {
    forall l, p, source, luck :: Follows(l, ap(l, p, source, luck))
  }

  lemma ProfilesFollow(env: Env)
    ensures Follow(ApplierOf(env))
  {
    forall l: Live, p: Profile, source: Source, luck: Luck
      ensures Follows(l, ApplierOf(env)(l, p, source, luck))
    {
      ApplicationFollows(env, l, p, source, luck);
    }
  }

  lemma BranchesFollow(ap: Applier, cfg: Config, g: Gui, w: World, t: TickLuck)
    requires Follow(ap)
    ensures Follows(g.live, Branches(ap, cfg, g, w, t).live) && Branches(ap, cfg, g, w, t).boot == g.boot
  {
    var g1 := ModeBranch(ap, cfg, g, t.mode);
    var g2 := ChargerBranch(ap, cfg, g1, w, t.charger);
    var g3 := PlanBranch(ap, cfg, g2, w, t.plan);
    assert Follows(g.live, g1.live) && Follows(g1.live, g2.live) && Follows(g2.live, g3.live);
    FollowsInTurn(g.live, g1.live, g2.live);
    FollowsInTurn(g.live, g2.live, g3.live);
  }

  /** What the program does: a write of its own to any node, a tick, and persistence
      switched, which saves at once. */
  datatype Deed = Write(node: Node, value: i32, calls: Wmi) | Ticked(w: World, luck: TickLuck) | Persist(on: bool)

  function Done(env: Env, cfg: Config, g: Gui, d: Deed): (Config, Gui)
  {
    match d
    case Write(node, value, w) => (cfg, g.(live := GuiWrite(env, g.live, node, value, w)))
    case Ticked(w, luck) => (cfg, Tick(env, ApplierOf(env), cfg, g, w, luck))
    case Persist(on) =>
      (SetPersist(cfg, on), if on then g.(boot := File(SnapshotLines(env, g.live.hw))) else g)
  }

  function DoneAll(env: Env, cfg: Config, g: Gui, ds: seq<Deed>): (Config, Gui)
    decreases |ds|
  {
    if ds == [] then (cfg, g) else var (c, g') := Done(env, cfg, g, ds[0]); DoneAll(env, c, g', ds[1..])
  }

  // ---- pushes nobody is told of ----

  /** The deed changes the hardware and leaves the flag down. A write does exactly when
      its store fails after a push it needed. */
  predicate Silent(env: Env, cfg: Config, g: Gui, d: Deed)
  {
    match d
    case Write(node, value, w) => !g.live.changed && SilentWrite(env, g.live.hw, node, value, w)
    case Ticked(w, luck) =>
      var l := Branches(ApplierOf(env), cfg, g, w, luck).live; !l.changed && l.hw != g.live.hw
    case Persist(_) => false
  }

  /** The deed makes up for earlier silent ones: it raises the flag, which the next tick
      takes, or saves at once. */
  predicate Amends(env: Env, cfg: Config, g: Gui, d: Deed)
  {
    match d
    case Write(node, value, w) => GuiWrite(env, g.live, node, value, w).changed
    case Ticked(w, luck) => Branches(ApplierOf(env), cfg, g, w, luck).live.changed
    case Persist(on) => on
  }

  /** Whether a silent deed has not been made up for. */
  predicate LeftBehind(env: Env, cfg: Config, g: Gui, ds: seq<Deed>, behind: bool)
    decreases |ds|
  {
    if ds == [] then behind
    else
      var (c, g') := Done(env, cfg, g, ds[0]);
      LeftBehind(env, c, g', ds[1..], !Amends(env, cfg, g, ds[0]) && (behind || Silent(env, cfg, g, ds[0])))
  }

  /** boot.conf is a snapshot from before limits drifted, and no save is owed. */
  ghost predicate BootIsBehind(env: Env, g: Gui)
  {
    && !g.live.changed
    && exists m: Machine :: m != g.live.hw && Drifts(m, g.live.hw) && g.boot == File(SnapshotLines(env, m))
  }

  ghost predicate Standing(env: Env, cfg: Config, g: Gui, behind: bool)
  {
    cfg.persist ==> if behind then BootIsBehind(env, g) else BootIsFresh(env, cfg, g)
  }

  /** A snapshot tells limits apart, so one from before a drift is not fresh. */
  lemma BehindIsNotFresh(env: Env, cfg: Config, g: Gui)
    requires cfg.persist && BootIsBehind(env, g)
    ensures !BootIsFresh(env, cfg, g)
  {
    var m: Machine :| m != g.live.hw && Drifts(m, g.live.hw) && g.boot == File(SnapshotLines(env, m));
    if BootIsFresh(env, cfg, g) { SnapshotTellsLimits(env, m, g.live.hw); }
  }

  /** A deed that leaves the flag down and follows: fresh or behind as before, and behind
      if it changed anything. */
  lemma UnflaggedStands(env: Env, cfg: Config, g: Gui, g': Gui, behind: bool)
    requires Standing(env, cfg, g, behind) && Follows(g.live, g'.live) && !g'.live.changed && g'.boot == g.boot
    ensures Standing(env, cfg, g', behind || g'.live.hw != g.live.hw)
  {
    if cfg.persist && (behind || g'.live.hw != g.live.hw) {
      var m: Machine;
      if behind {
        m :| m != g.live.hw && Drifts(m, g.live.hw) && g.boot == File(SnapshotLines(env, m));
      } else {
        m := g.live.hw;
      }
      assert m != g'.live.hw && Drifts(m, g'.live.hw);
    }
  }

  lemma DeedStands(env: Env, cfg: Config, g: Gui, d: Deed, behind: bool)
    requires Standing(env, cfg, g, behind) && (d.Ticked? ==> d.luck.save)
    ensures var (c, g') := Done(env, cfg, g, d);
            Standing(env, c, g', !Amends(env, cfg, g, d) && (behind || Silent(env, cfg, g, d)))
  {
    match d
    case Write(node, value, w) =>
      var g' := g.(live := GuiWrite(env, g.live, node, value, w));
      WriteFollows(env, g.live, node, value, w);
      SilentWriteIff(env, g.live, node, value, w);
      if !g'.live.changed { UnflaggedStands(env, cfg, g, g', behind); }
    case Ticked(w, luck) =>
      var g' := Branches(ApplierOf(env), cfg, g, w, luck);
      ProfilesFollow(env);
      BranchesFollow(ApplierOf(env), cfg, g, w, luck);
      if !g'.live.changed { UnflaggedStands(env, cfg, g, g', behind); }
    case Persist(on) =>
  }

  lemma {:induction false} RunStands(env: Env, cfg: Config, g: Gui, ds: seq<Deed>, behind: bool)
    requires Standing(env, cfg, g, behind) && forall d | d in ds :: d.Ticked? ==> d.luck.save
    ensures var (c, end) := DoneAll(env, cfg, g, ds); Standing(env, c, end, LeftBehind(env, cfg, g, ds, behind))
    decreases |ds|
  {
    if ds != [] {
      var (c, g') := Done(env, cfg, g, ds[0]);
      assert ds[0] in ds;
      assert forall d | d in ds[1..] :: d in ds;
      DeedStands(env, cfg, g, ds[0], behind);
      RunStands(env, c, g', ds[1..], !Amends(env, cfg, g, ds[0]) && (behind || Silent(env, cfg, g, ds[0])));
    }
  }

  /** Over every run of the program's own deeds whose saves succeed, whatever else fails or
      is clamped: with persistence on, a save is owed or boot.conf is the printed snapshot
      of the hardware, if and only if no silent push is left to make up for. */
  lemma BootIsFreshIff(env: Env, cfg: Config, g: Gui, ds: seq<Deed>)
    requires BootIsFresh(env, cfg, g) && forall d | d in ds :: d.Ticked? ==> d.luck.save
    ensures var (c, end) := DoneAll(env, cfg, g, ds);
            c.persist ==> (BootIsFresh(env, c, end) <==> !LeftBehind(env, cfg, g, ds, false))
  {
    RunStands(env, cfg, g, ds, false);
    var (c, end) := DoneAll(env, cfg, g, ds);
    if c.persist && LeftBehind(env, cfg, g, ds, false) { BehindIsNotFresh(env, c, end); }
  }

  /** So it is fresh throughout when no deed is silent. A tick at the end, as at exit,
      leaves nothing owed. */
  lemma {:induction false} ProgramKeepsBootFresh(env: Env, cfg: Config, g: Gui, ds: seq<Deed>)
    requires BootIsFresh(env, cfg, g) && forall d | d in ds :: d.Ticked? ==> d.luck.save
    requires NeverSilent(env, cfg, g, ds)
    ensures var (c, end) := DoneAll(env, cfg, g, ds);
            && BootIsFresh(env, c, end)
            && (c.persist ==> SavedIfChanged(env, true, end, true).boot == File(SnapshotLines(env, end.live.hw)))
    decreases |ds|
  {
    if ds != [] {
      var (c, g') := Done(env, cfg, g, ds[0]);
      assert ds[0] in ds;
      assert forall d | d in ds[1..] :: d in ds;
      DeedStands(env, cfg, g, ds[0], false);
      ProgramKeepsBootFresh(env, c, g', ds[1..]);
    }
  }

  predicate NeverSilent(env: Env, cfg: Config, g: Gui, ds: seq<Deed>)
    decreases |ds|
  {
    ds != [] ==>
      var (c, g') := Done(env, cfg, g, ds[0]);
      !Silent(env, cfg, g, ds[0]) && NeverSilent(env, c, g', ds[1..])
  }

  /** One write breaks a fresh snapshot exactly when it is a store of a firmware limit, with
      coupling on, that needs its push, reads and pushes, and then fails. */
  lemma WriteBreaksFreshnessIff(env: Env, cfg: Config, g: Gui, node: Node, value: i32, w: Wmi)
    requires cfg.persist && !g.live.changed && BootIsFresh(env, cfg, g)
    ensures BootIsFresh(env, cfg, g.(live := GuiWrite(env, g.live, node, value, w)))
            <==> !SilentWrite(env, g.live.hw, node, value, w)
  {
    var d := Deed.Write(node, value, w);
    var g' := g.(live := GuiWrite(env, g.live, node, value, w));
    DeedStands(env, cfg, g, d, false);
    SilentWriteIff(env, g.live, node, value, w);
    if SilentWrite(env, g.live.hw, node, value, w) { BehindIsNotFresh(env, cfg, g'); }
  }

  /** With limits of 40 and 60 W, coupled, a store of 70 W for PL1 whose own write fails
      leaves 40 and 70 W, reports an error, and is never saved. */
  lemma FailedStoreStalesBoot(env: Env, cfg: Config, g: Gui)
    requires env.ignoreCapdata && cfg.persist && !g.live.changed && BootIsFresh(env, cfg, g)
    requires g.live.hw.coupling && g.live.hw.firmware == Limits(40, 60)
    ensures var g' := g.(live := GuiWrite(env, g.live, FwPl1Node, 70, Wmi(true, true, false)));
            && g'.live.hw.firmware == Limits(40, 70) && !g'.live.changed && !BootIsFresh(env, cfg, g')
  {
    ShownParses(70);
    WriteBreaksFreshnessIff(env, cfg, g, FwPl1Node, 70, Wmi(true, true, false));
  }

  /** An application with a point to write raises the flag. */
  ghost predicate Flags(ap: Applier)
  {
    forall l: Live, p: Profile, source, luck | p.curve != [] && l.hw.curve != [] ::
      ap(l, p, source, luck).changed && ap(l, p, source, luck).hw.curve != []
  }

  lemma MarkedIsFlagged(ap: Applier, g: Gui, p: Option<Profile>, source: Source, luck: Luck)
    requires Flags(ap) && g.live.hw.curve != [] && (p.Some? ==> p.value.curve != [])
    ensures var l := Marked(ap, g, p, source, luck).live; l == g.live || (l.changed && l.hw.curve != [])
  {
  }

  lemma BranchesAreFlagged(ap: Applier, cfg: Config, g: Gui, w: World, t: TickLuck)
    requires Flags(ap) && g.live.hw.curve != [] && forall p | p in cfg.profiles :: p.curve != []
    ensures Branches(ap, cfg, g, w, t).live == g.live || Branches(ap, cfg, g, w, t).live.changed
  {
    var g1 := ModeBranch(ap, cfg, g, t.mode);
    var g2 := ChargerBranch(ap, cfg, g1, w, t.charger);
    var g3 := PlanBranch(ap, cfg, g2, w, t.plan);
    MarkedIsFlagged(ap, g.(seen := g1.seen), ForMode(cfg, g.live.hw.mode), ByMode, t.mode);
    MarkedIsFlagged(ap, g1.(seen := g2.seen), ForPower(cfg, w.onBattery), ByCharger, t.charger);
    MarkedIsFlagged(ap, g2.(seen := g3.seen), ForPlan(cfg, w.plan), ByPlan, t.plan);
  }

  /** No tick is silent while every profile has a point and the machine a table. */
  lemma TickIsNeverSilent(env: Env, cfg: Config, g: Gui, w: World, t: TickLuck)
    requires g.live.hw.curve != [] && forall p | p in cfg.profiles :: p.curve != []
    ensures !Silent(env, cfg, g, Ticked(w, t))
  {
    ProfilesFlag(env);
    BranchesAreFlagged(ApplierOf(env), cfg, g, w, t);
  }

  lemma ProfilesFlag(env: Env)
    ensures Flags(ApplierOf(env))
  {
    forall l: Live, p: Profile, source: Source, luck: Luck | p.curve != [] && l.hw.curve != []
      ensures ApplierOf(env)(l, p, source, luck).changed && ApplierOf(env)(l, p, source, luck).hw.curve != []
    {
      ApplicationRaisesFlag(env, l, p, source, luck);
    }
  }
}
