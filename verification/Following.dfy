/** Which profile the poll loop applies: every change of mode, charger or plan finds the
    first profile that follows it, and binding a profile to a source makes it that one. */
module Following {
  import opened MachineInts
  import opened BootReplay
  import opened Profiles
  import opened GuiHardware
  import opened PollLoop

  // ---- what following means, without the loop's searches ----

  /** `p` is the first of the list that is wanted; nothing if none is. */
  ghost predicate Picked(ps: seq<Profile>, want: Profile -> bool, p: Option<Profile>)
  {
    match p
    case None => forall q | q in ps :: !want(q)
    case Some(p) => exists i :: 0 <= i < |ps| && ps[i] == p && want(ps[i]) && forall j | 0 <= j < i :: !want(ps[j])
  }

  /** The first profile of that name. */
  ghost predicate PickedByName(ps: seq<Profile>, name: string, p: Option<Profile>)
  {
    Picked(ps, (q: Profile) => q.name == name, p)
  }

  /** The first profile that follows exactly that plan. */
  ghost predicate PickedByPlan(ps: seq<Profile>, plan: string, p: Option<Profile>)
  {
    Picked(ps, (q: Profile) => q.powerPlan == Some(plan), p)
  }

  /** The profile named by the first binding of the mode. */
  ghost predicate PickedByMode(cfg: Config, mode: int, p: Option<Profile>)
  {
    if forall b | b in cfg.bindings :: b.0 != mode then p.None?
    else exists i :: 0 <= i < |cfg.bindings| && cfg.bindings[i].0 == mode
                     && (forall j | 0 <= j < i :: cfg.bindings[j].0 != mode)
                     && PickedByName(cfg.profiles, cfg.bindings[i].1, p)
  }

  ghost predicate PickedBySource(ps: seq<Profile>, source: Option<string>, p: Option<Profile>)
  {
    if source.None? then p.None? else PickedByName(ps, source.value, p)
  }

  lemma OneIsPicked(ps: seq<Profile>, want: Profile -> bool, p: Option<Profile>, q: Option<Profile>)
    requires Picked(ps, want, p) && Picked(ps, want, q)
    ensures p == q
  {
  }

  // ---- the searches find it ----

  lemma NamedIsPicked(cfg: Config, name: string)
    ensures PickedByName(cfg.profiles, name, Named(cfg, Some(name)))
  {
    var want := (p: Profile) => p.name == name;
    var r := FirstNamed(cfg.profiles, name);
    if r.Some? {
      assert forall j | 0 <= j < r.value :: !want(cfg.profiles[j]);
      assert want(cfg.profiles[r.value]);
    }
  }

  /** A plan applies the first profile that follows exactly that plan. */
  lemma PlanFindsIff(cfg: Config, plan: string, p: Option<Profile>)
    ensures ForPlan(cfg, Some(plan)) == p <==> PickedByPlan(cfg.profiles, plan, p)
  {
    var want := (q: Profile) => q.powerPlan == Some(plan);
    var found := ForPlan(cfg, Some(plan));
    assert PickedByPlan(cfg.profiles, plan, found) by {
      var r := Position(cfg.profiles, (q: Profile) => q.powerPlan == Some(plan));
      if r.Some? {
        assert want(cfg.profiles[r.value]) && forall j | 0 <= j < r.value :: !want(cfg.profiles[j]);
      }
    }
    if PickedByPlan(cfg.profiles, plan, p) { OneIsPicked(cfg.profiles, want, p, found); }
  }

  /** Battery applies the profile bound to battery and AC the one bound to AC, each the
      first of its name. */
  lemma PowerFindsIff(cfg: Config, p: Option<Profile>)
    ensures ForPower(cfg, true) == p <==> PickedBySource(cfg.profiles, cfg.onBattery, p)
    ensures ForPower(cfg, false) == p <==> PickedBySource(cfg.profiles, cfg.onAc, p)
  {
    SourceFindsIff(cfg, cfg.onBattery, p);
    SourceFindsIff(cfg, cfg.onAc, p);
  }

  lemma SourceFindsIff(cfg: Config, source: Option<string>, p: Option<Profile>)
    ensures Named(cfg, source) == p <==> PickedBySource(cfg.profiles, source, p)
  {
    if source.Some? {
      NamedIsPicked(cfg, source.value);
      if PickedByName(cfg.profiles, source.value, p) {
        OneIsPicked(cfg.profiles, (q: Profile) => q.name == source.value, p, Named(cfg, source));
      }
    }
  }

  /** A mode applies the profile of its first binding. */
  lemma ModeFindsIff(cfg: Config, mode: int, p: Option<Profile>)
    ensures ForMode(cfg, mode) == p <==> PickedByMode(cfg, mode, p)
  {
    var name := BoundName(cfg.bindings, mode);
    if name.Some? {
      var i :| 0 <= i < |cfg.bindings| && cfg.bindings[i] == (mode, name.value)
               && forall j | 0 <= j < i :: cfg.bindings[j].0 != mode;
      assert cfg.bindings[i] in cfg.bindings;
      SourceFindsIff(cfg, name, p);
    }
  }

  // ---- a whole tick ----

  /** What each of the three sources picks, if it has news. */
  ghost predicate Picks(cfg: Config, g: Gui, w: World,
                        byMode: Option<Profile>, byCharger: Option<Profile>, byPlan: Option<Profile>)
  {
    && (if g.seen.mode == g.live.hw.mode then byMode.None? else PickedByMode(cfg, g.live.hw.mode, byMode))
    && (if g.seen.onBattery == Some(w.onBattery) then byCharger.None?
        else PickedBySource(cfg.profiles, if w.onBattery then cfg.onBattery else cfg.onAc, byCharger))
    && (if w.plan.None? || g.seen.plan == w.plan then byPlan.None?
        else PickedByPlan(cfg.profiles, w.plan.value, byPlan))
  }

  function Names(p: Option<Profile>): seq<string> { if p.None? then [] else [p.value.name] }

  /** The hardware after a pick. */
  function AfterPick(ap: Applier, l: Live, p: Option<Profile>, source: Source, luck: Luck): Live
  {
    if p.None? then l else ap(l, p.value, source, luck)
  }

  /** A tick applies what its sources pick, the mode's first and the plan's last, and
      nothing else; then nothing it has reacted to is news. */
  lemma TickAppliesPicks(env: Env, cfg: Config, g: Gui, w: World, t: TickLuck,
                         byMode: Option<Profile>, byCharger: Option<Profile>, byPlan: Option<Profile>)
    requires Picks(cfg, g, w, byMode, byCharger, byPlan)
    ensures var ap := ApplierOf(env);
            var g' := Tick(env, ap, cfg, g, w, t);
            var l1 := AfterPick(ap, g.live, byMode, ByMode, t.mode);
            var l2 := AfterPick(ap, l1, byCharger, ByCharger, t.charger);
            && g'.live == AfterPick(ap, l2, byPlan, ByPlan, t.plan).(changed := false)
            && g'.applied == g.applied + Names(byMode) + Names(byCharger) + Names(byPlan)
            && g'.seen == Seen(g.live.hw.mode, Some(w.onBattery), if w.plan.Some? then w.plan else g.seen.plan)
  {
    ModeFindsIff(cfg, g.live.hw.mode, byMode);
    PowerFindsIff(cfg, byCharger);
    if w.plan.Some? { PlanFindsIff(cfg, w.plan.value, byPlan); }
    PicksAreApplied(env, ApplierOf(env), cfg, g, w, t, byMode, byCharger, byPlan);
  }

  lemma PicksAreApplied(env: Env, ap: Applier, cfg: Config, g: Gui, w: World,
                        t: TickLuck, byMode: Option<Profile>, byCharger: Option<Profile>,
                        byPlan: Option<Profile>)
    requires byMode == if g.seen.mode == g.live.hw.mode then None else ForMode(cfg, g.live.hw.mode)
    requires byCharger == if g.seen.onBattery == Some(w.onBattery) then None else ForPower(cfg, w.onBattery)
    requires byPlan == if w.plan.None? || g.seen.plan == w.plan then None else ForPlan(cfg, w.plan)
    ensures var g' := Tick(env, ap, cfg, g, w, t);
            var l1 := AfterPick(ap, g.live, byMode, ByMode, t.mode);
            var l2 := AfterPick(ap, l1, byCharger, ByCharger, t.charger);
            && g'.live == AfterPick(ap, l2, byPlan, ByPlan, t.plan).(changed := false)
            && g'.applied == g.applied + Names(byMode) + Names(byCharger) + Names(byPlan)
            && g'.seen == Seen(g.live.hw.mode, Some(w.onBattery), if w.plan.Some? then w.plan else g.seen.plan)
  {
    var g1 := ModeBranch(ap, cfg, g, t.mode);
    var g2 := ChargerBranch(ap, cfg, g1, w, t.charger);
    MarkedIsPicked(ap, g.(seen := g1.seen), byMode, ByMode, t.mode);
    MarkedIsPicked(ap, g1.(seen := g2.seen), byCharger, ByCharger, t.charger);
    MarkedIsPicked(ap, g2.(seen := PlanBranch(ap, cfg, g2, w, t.plan).seen), byPlan, ByPlan, t.plan);
  }

  lemma MarkedIsPicked(ap: Applier, g: Gui, p: Option<Profile>, source: Source, luck: Luck)
    ensures Marked(ap, g, p, source, luck)
         == g.(live := AfterPick(ap, g.live, p, source, luck), applied := g.applied + Names(p))
  {
    assert g.applied + [] == g.applied;
  }

  /** So a tick applies nothing if and only if no source with news is followed. */
  lemma NothingFollowsIff(env: Env, cfg: Config, g: Gui, w: World, t: TickLuck)
    ensures Tick(env, ApplierOf(env), cfg, g, w, t).applied == g.applied
            <==> Picks(cfg, g, w, None, None, None)
  {
    var byMode := if g.seen.mode == g.live.hw.mode then None else ForMode(cfg, g.live.hw.mode);
    var byCharger := if g.seen.onBattery == Some(w.onBattery) then None else ForPower(cfg, w.onBattery);
    var byPlan := if w.plan.None? || g.seen.plan == w.plan then None else ForPlan(cfg, w.plan);
    ModeFindsIff(cfg, g.live.hw.mode, byMode);
    PowerFindsIff(cfg, byCharger);
    if w.plan.Some? { PlanFindsIff(cfg, w.plan.value, byPlan); }
    PicksAreApplied(env, ApplierOf(env), cfg, g, w, t, byMode, byCharger, byPlan);
    if Picks(cfg, g, w, None, None, None) {
      TickAppliesPicks(env, cfg, g, w, t, None, None, None);
    }
  }

  /** With the plan the only news, the tick applies the first profile on exactly that plan,
      and applies nothing if and only if no profile follows it. */
  lemma PlanChangeApplies(env: Env, cfg: Config, g: Gui, w: World, t: TickLuck)
    requires g.seen.mode == g.live.hw.mode && g.seen.onBattery == Some(w.onBattery)
    requires w.plan.Some? && g.seen.plan != w.plan
    ensures var ap := ApplierOf(env);
            var g' := Tick(env, ap, cfg, g, w, t);
            && (g'.applied == g.applied <==> forall p | p in cfg.profiles :: p.powerPlan != w.plan)
            && (forall i | 0 <= i < |cfg.profiles| && cfg.profiles[i].powerPlan == w.plan
                           && (forall j | 0 <= j < i :: cfg.profiles[j].powerPlan != w.plan) ::
                  && g'.applied == g.applied + [cfg.profiles[i].name]
                  && g'.live.hw == ap(g.live, cfg.profiles[i], ByPlan, t.plan).hw)
  {
    var p := ForPlan(cfg, w.plan);
    PlanFindsIff(cfg, w.plan.value, p);
    TickAppliesPicks(env, cfg, g, w, t, None, None, p);
    forall i | 0 <= i < |cfg.profiles| && cfg.profiles[i].powerPlan == w.plan
               && forall j | 0 <= j < i :: cfg.profiles[j].powerPlan != w.plan
      ensures p == Some(cfg.profiles[i])
    {
      FirstOnPlan(cfg.profiles, w.plan.value, i, p);
    }
  }

  lemma FirstOnPlan(ps: seq<Profile>, plan: string, i: nat, p: Option<Profile>)
    requires i < |ps| && ps[i].powerPlan == Some(plan) && PickedByPlan(ps, plan, p)
    requires forall j | 0 <= j < i :: ps[j].powerPlan != Some(plan)
    ensures p == Some(ps[i])
  {
    var want := (q: Profile) => q.powerPlan == Some(plan);
    assert want(ps[i]) && forall j | 0 <= j < i :: !want(ps[j]);
    OneIsPicked(ps, want, Some(ps[i]), p);
  }

  // ---- binding a source ----

  /** The plan a choice of source stands for. */
  predicate IsPlanChoice(which: int, plan: string)
  {
    || (which == 3 && plan == "power-saver") || (which == 4 && plan == "balanced")
    || (which == 5 && plan == "performance")
  }

  /** Binding changes one profile, the first of the chosen one's name, and of that only
      the plan; and of the sources only what concerns that name. */
  lemma BindingFrame(cfg: Config, idx: nat, which: int, i: nat)
    requires idx < |cfg.profiles| && i < |cfg.profiles| && cfg.profiles[i].name == cfg.profiles[idx].name
    requires forall j | 0 <= j < i :: cfg.profiles[j].name != cfg.profiles[idx].name
    ensures var c, name := BindPowerSource(cfg, idx, which), Some(cfg.profiles[idx].name);
            && |c.profiles| == |cfg.profiles| && c.bindings == cfg.bindings && c.persist == cfg.persist
            && (forall j | 0 <= j < |c.profiles| && j != i :: c.profiles[j] == cfg.profiles[j])
            && c.profiles[i] == cfg.profiles[i].(powerPlan := c.profiles[i].powerPlan)
            && (forall plan :: c.profiles[i].powerPlan == Some(plan) <==> IsPlanChoice(which, plan))
            && (c.profiles[i].powerPlan.None? <==> !(3 <= which <= 5))
            && (c.onBattery == name <==> which == 1) && (c.onAc == name <==> which == 2)
            && (cfg.onBattery != name && which != 1 ==> c.onBattery == cfg.onBattery)
            && (cfg.onAc != name && which != 2 ==> c.onAc == cfg.onAc)
            && (c.onBattery in {name, cfg.onBattery, None}) && (c.onAc in {name, cfg.onAc, None})
  {
    FirstNamedIs(cfg.profiles, cfg.profiles[idx].name, i);
  }

  /** What the loop applies after a profile was bound. Bound to battery it answers for
      battery, bound to AC it answers for AC, with its first namesake in its stead and no
      plan. Its name leaves the source it was not bound to, and what else answered for one
      still does. */
  lemma BoundSourceAnswers(cfg: Config, idx: nat, which: int, i: nat)
    requires idx < |cfg.profiles| && i < |cfg.profiles| && cfg.profiles[i].name == cfg.profiles[idx].name
    requires forall j | 0 <= j < i :: cfg.profiles[j].name != cfg.profiles[idx].name
    ensures var c, name := BindPowerSource(cfg, idx, which), Some(cfg.profiles[idx].name);
            && ForPower(c, true)
               == (if which == 1 then Some(cfg.profiles[i].(powerPlan := None))
                   else if cfg.onBattery == name then None else ForPower(cfg, true))
            && ForPower(c, false)
               == (if which == 2 then Some(cfg.profiles[i].(powerPlan := None))
                   else if cfg.onAc == name then None else ForPower(cfg, false))
  {
    BindingFrame(cfg, idx, which, i);
    var c, name := BindPowerSource(cfg, idx, which), cfg.profiles[idx].name;
    FirstNamedIs(c.profiles, name, i);
    if cfg.onBattery != Some(name) { OthersAnswerAlike(cfg, c, i, cfg.onBattery); }
    if cfg.onAc != Some(name) { OthersAnswerAlike(cfg, c, i, cfg.onAc); }
  }

  lemma OthersAnswerAlike(cfg: Config, c: Config, i: nat, source: Option<string>)
    requires i < |c.profiles| == |cfg.profiles| && c.profiles[i].name == cfg.profiles[i].name
    requires forall j | 0 <= j < |c.profiles| && j != i :: c.profiles[j] == cfg.profiles[j]
    requires source != Some(cfg.profiles[i].name)
    ensures Named(c, source) == Named(cfg, source)
  {
    if source.Some? {
      SameNamesSameFirst(cfg.profiles, c.profiles, source.value);
    }
  }

  /** Bound to a plan, the profile answers for that plan unless one before it in the list
      follows it already. */
  lemma BoundPlanAnswersIff(cfg: Config, idx: nat, which: int, i: nat, plan: string)
    requires idx < |cfg.profiles| && i < |cfg.profiles| && cfg.profiles[i].name == cfg.profiles[idx].name
    requires forall j | 0 <= j < i :: cfg.profiles[j].name != cfg.profiles[idx].name
    requires IsPlanChoice(which, plan)
    ensures var c, bound := BindPowerSource(cfg, idx, which), cfg.profiles[i].(powerPlan := Some(plan));
            ForPlan(c, Some(plan)) == Some(bound)
            <==> forall j | 0 <= j < i :: cfg.profiles[j].powerPlan != Some(plan)
  {
    BindingFrame(cfg, idx, which, i);
    var c := BindPowerSource(cfg, idx, which);
    var want := (q: Profile) => q.powerPlan == Some(plan);
    var bound := cfg.profiles[i].(powerPlan := Some(plan));
    assert c.profiles[i] == bound && want(bound);
    PlanFindsIff(c, plan, Some(bound));
    if forall j | 0 <= j < i :: cfg.profiles[j].powerPlan != Some(plan) {
      assert forall j | 0 <= j < i :: !want(c.profiles[j]);
    } else {
      var j :| 0 <= j < i && cfg.profiles[j].powerPlan == Some(plan);
      assert want(c.profiles[j]);
    }
  }

  /** A plan it was not bound to answers as if the profile were not there. */
  lemma OtherPlansForget(cfg: Config, idx: nat, which: int, i: nat, plan: string)
    requires idx < |cfg.profiles| && i < |cfg.profiles| && cfg.profiles[i].name == cfg.profiles[idx].name
    requires forall j | 0 <= j < i :: cfg.profiles[j].name != cfg.profiles[idx].name
    requires !IsPlanChoice(which, plan)
    ensures var c, others := BindPowerSource(cfg, idx, which), cfg.profiles[..i] + cfg.profiles[i + 1..];
            PickedByPlan(others, plan, ForPlan(c, Some(plan)))
  {
    BindingFrame(cfg, idx, which, i);
    var c, others := BindPowerSource(cfg, idx, which), cfg.profiles[..i] + cfg.profiles[i + 1..];
    var want := (q: Profile) => q.powerPlan == Some(plan);
    var p := ForPlan(c, Some(plan));
    PlanFindsIff(c, plan, p);
    assert !want(c.profiles[i]);
    OthersPickAlike(c.profiles, i, want, p);
    assert c.profiles[..i] == cfg.profiles[..i] && c.profiles[i + 1..] == cfg.profiles[i + 1..];
  }

  /** Taking out a profile that is not wanted changes nothing. */
  lemma OthersPickAlike(ps: seq<Profile>, i: nat, want: Profile -> bool, p: Option<Profile>)
    requires i < |ps| && !want(ps[i]) && Picked(ps, want, p)
    ensures Picked(ps[..i] + ps[i + 1..], want, p)
  {
    var others := ps[..i] + ps[i + 1..];
    assert forall j | 0 <= j < |others| :: others[j] == ps[if j < i then j else j + 1];
    if p.Some? {
      var k :| 0 <= k < |ps| && ps[k] == p.value && want(ps[k]) && forall j | 0 <= j < k :: !want(ps[j]);
      assert others[if k < i then k else k - 1] == p.value;
    }
  }
}
