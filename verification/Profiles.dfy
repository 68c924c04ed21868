/** The GUI's configuration: its list of profiles, which profile follows which power mode
    or power source, and what survives saving and loading it. */
module Profiles {
  import opened MachineInts

  datatype Profile = Profile(name: string, curve: seq<(int, int)>, pl1: i32, pl2: i32, tau: i32,
                             powermode: int, fanFullspeed: bool, powerPlan: Option<string>, builtin: bool)

  type Binding = (int, string)

  datatype Config = Config(profiles: seq<Profile>, bindings: seq<Binding>,
                           onBattery: Option<string>, onAc: Option<string>, persist: bool)

  const MODES: seq<int> := [1, 2, 3, 224, 255]
  const PLANS: seq<string> := ["power-saver", "balanced", "performance"]

  // ---- lists ----

  /** `Vec::retain` */
  function Retain<T>(xs: seq<T>, keep: T -> bool): seq<T>
  {
    if xs == [] then [] else (if keep(xs[0]) then [xs[0]] else []) + Retain(xs[1..], keep)
  }

  /** `iter().position` */
  function Position<T>(xs: seq<T>, want: T -> bool): (r: Option<nat>)
    ensures r.None? ==> forall x | x in xs :: !want(x)
    ensures r.Some? ==> r.value < |xs| && want(xs[r.value]) && forall j | 0 <= j < r.value :: !want(xs[j])
  {
    if xs == [] then None
    else if want(xs[0]) then Some(0)
    else
      match Position(xs[1..], want)
      case None => None
      case Some(i) => Some(i + 1)
  }

  lemma {:induction false} RetainKeeps<T>(xs: seq<T>, keep: T -> bool, x: T)
    ensures x in Retain(xs, keep) <==> x in xs && keep(x)
    decreases |xs|
  {
    if xs != [] {
      RetainKeeps(xs[1..], keep, x);
      assert xs == [xs[0]] + xs[1..];
    }
  }

  lemma {:induction false} RetainAll<T>(xs: seq<T>, keep: T -> bool)
    requires forall x | x in xs :: keep(x)
    ensures Retain(xs, keep) == xs
    decreases |xs|
  {
    if xs != [] { RetainAll(xs[1..], keep); }
  }

  lemma {:induction false} RetainNone<T>(xs: seq<T>, keep: T -> bool)
    requires forall x | x in xs :: !keep(x)
    ensures Retain(xs, keep) == []
    decreases |xs|
  {
    if xs != [] { RetainNone(xs[1..], keep); }
  }

  lemma {:induction false} RetainAppend<T>(xs: seq<T>, ys: seq<T>, keep: T -> bool)
    ensures Retain(xs + ys, keep) == Retain(xs, keep) + Retain(ys, keep)
    decreases |xs|
  {
    if xs == [] {
      assert xs + ys == ys;
    } else {
      var head := if keep(xs[0]) then [xs[0]] else [];
      assert (xs + ys)[1..] == xs[1..] + ys && (xs + ys)[0] == xs[0];
      RetainAppend(xs[1..], ys, keep);
      assert Retain(xs, keep) == head + Retain(xs[1..], keep);
      assert Retain(xs + ys, keep) == head + (Retain(xs[1..], keep) + Retain(ys, keep));
    }
  }

  // ---- what the callbacks make of a configuration ----

  function NameAt(cfg: Config, idx: int): Option<string>
  {
    if 0 <= idx < |cfg.profiles| then Some(cfg.profiles[idx].name) else None
  }

  function WithoutName(bs: seq<Binding>, name: string): seq<Binding>
  {
    Retain(bs, (b: Binding) => b.1 != name)
  }

  function WithoutMode(bs: seq<Binding>, mode: int): seq<Binding>
  {
    Retain(bs, (b: Binding) => b.0 != mode)
  }

  /** `on_bind_profile`; modeIdx 0 is "(no binding)". */
  function BindProfile(cfg: Config, idx: int, modeIdx: int): Config
  {
    match NameAt(cfg, idx)
    case None => cfg
    case Some(name) =>
      var bs := WithoutName(cfg.bindings, name);
      cfg.(bindings := if 0 < modeIdx <= |MODES| then WithoutMode(bs, MODES[modeIdx - 1]) + [(MODES[modeIdx - 1], name)]
                       else bs)
  }

  /** The first profile of that name follows the plan. */
  function WithPlan(ps: seq<Profile>, name: string, plan: Option<string>): (r: seq<Profile>)
    ensures |r| == |ps|
  {
    match FirstNamed(ps, name)
    case None => ps
    case Some(i) => ps[i := ps[i].(powerPlan := plan)]
  }

  function FirstNamed(ps: seq<Profile>, name: string): (r: Option<nat>)
    ensures r.None? ==> forall p | p in ps :: p.name != name
    ensures r.Some? ==> r.value < |ps| && ps[r.value].name == name && forall j | 0 <= j < r.value :: ps[j].name != name
  {
    Position(ps, (p: Profile) => p.name == name)
  }

  /** `on_bind_power_source`: 1 battery, 2 AC, 3 to 5 a plan, anything else clears. */
  function BindPowerSource(cfg: Config, idx: int, which: int): Config
  {
    match NameAt(cfg, idx)
    case None => cfg
    case Some(name) =>
      Config(WithPlan(cfg.profiles, name, if 3 <= which <= 5 then Some(PLANS[which - 3]) else None),
             cfg.bindings,
             if which == 1 then Some(name) else if cfg.onBattery == Some(name) then None else cfg.onBattery,
             if which == 2 then Some(name) else if cfg.onAc == Some(name) then None else cfg.onAc,
             cfg.persist)
  }

  function UserNamed(ps: seq<Profile>, name: string): (r: Option<nat>)
    ensures r.None? ==> forall p | p in ps :: !(p.name == name && !p.builtin)
    ensures r.Some? ==> r.value < |ps| && ps[r.value].name == name && !ps[r.value].builtin
  {
    Position(ps, (p: Profile) => p.name == name && !p.builtin)
  }

  /** `on_save_profile`: the edited values under a name, as a user's profile. */
  function SaveProfile(cfg: Config, edited: Profile): Config
  {
    var prof := edited.(powermode := 0, powerPlan := None, builtin := false);
    match UserNamed(cfg.profiles, prof.name)
    case Some(i) => cfg.(profiles := cfg.profiles[i := prof])
    case None => cfg.(profiles := cfg.profiles + [prof])
  }

  /** `on_update_profile` */
  function UpdateProfile(cfg: Config, idx: int, edited: Profile): Config
  {
    if !(0 <= idx < |cfg.profiles|) || cfg.profiles[idx].builtin then cfg
    else
      var p := cfg.profiles[idx];
      cfg.(profiles := cfg.profiles[idx := edited.(name := p.name, powerPlan := p.powerPlan, builtin := false)])
  }

  /** `on_delete_profile`: bindings to the name go too, power sources do not. */
  function DeleteProfile(cfg: Config, idx: int): Config
  {
    if !(0 <= idx < |cfg.profiles|) || cfg.profiles[idx].builtin then cfg
    else
      cfg.(profiles := cfg.profiles[..idx] + cfg.profiles[idx + 1..],
           bindings := WithoutName(cfg.bindings, cfg.profiles[idx].name))
  }

  function SetPersist(cfg: Config, on: bool): Config { cfg.(persist := on) }

  datatype Callback =
    | Bind(idx: int, modeIdx: int)
    | BindSource(idx: int, which: int)
    | SaveAs(edited: Profile)
    | Update(idx: int, edited: Profile)
    | Delete(idx: int)
    | Persist(on: bool)

  function Called(cfg: Config, c: Callback): Config
  {
    match c
    case Bind(idx, modeIdx) => BindProfile(cfg, idx, modeIdx)
    case BindSource(idx, which) => BindPowerSource(cfg, idx, which)
    case SaveAs(edited) => SaveProfile(cfg, edited)
    case Update(idx, edited) => UpdateProfile(cfg, idx, edited)
    case Delete(idx) => DeleteProfile(cfg, idx)
    case Persist(on) => SetPersist(cfg, on)
  }

  function Users(ps: seq<Profile>): seq<Profile> { Retain(ps, (p: Profile) => !p.builtin) }

  /** `profiles::save`: what the file holds. */
  function Saved(cfg: Config): Config
  {
    cfg.(profiles := Users(cfg.profiles))
  }

  /** `profiles::load` of that file. */
  function Loaded(builtins: seq<Profile>, file: Config): Config
  {
    file.(profiles := builtins + Users(file.profiles))
  }

  // ---- the callbacks themselves ----

  class App {
    const builtins: seq<Profile>
    var cfg: Config
    var file: Config    // what profiles.json holds

    constructor (builtins: seq<Profile>, file: Config)
      ensures this.builtins == builtins && this.file == file && cfg == Loaded(builtins, file)
    {
      this.builtins, this.file := builtins, file;
      cfg := Loaded(builtins, file);
    }

    /** A failed save is ignored. */
    method Save(ok: bool)
      modifies this`file
      ensures file == if ok then Saved(cfg) else old(file)
    {
      if ok { file := Saved(cfg); }
    }

    method OnBindProfile(idx: int, modeIdx: int, ok: bool)
      modifies this
      ensures cfg == Called(old(cfg), Bind(idx, modeIdx))
      ensures file == if ok && 0 <= idx < |old(cfg).profiles| then Saved(cfg) else old(file)
    {
      if !(0 <= idx < |cfg.profiles|) { return; }
      var name := cfg.profiles[idx].name;
      cfg := cfg.(bindings := Retain(cfg.bindings, (b: Binding) => b.1 != name));
      if modeIdx > 0 && modeIdx - 1 < |MODES| {
        var m := MODES[modeIdx - 1];
        cfg := cfg.(bindings := Retain(cfg.bindings, (b: Binding) => b.0 != m));
        cfg := cfg.(bindings := cfg.bindings + [(m, name)]);
      }
      Save(ok);
    }

    method OnBindPowerSource(idx: int, which: int, ok: bool)
      modifies this
      ensures cfg == Called(old(cfg), BindSource(idx, which))
      ensures file == if ok && 0 <= idx < |old(cfg).profiles| then Saved(cfg) else old(file)
    {
      if !(0 <= idx < |cfg.profiles|) { return; }
      var name := cfg.profiles[idx].name;
      if cfg.onBattery == Some(name) { cfg := cfg.(onBattery := None); }
      if cfg.onAc == Some(name) { cfg := cfg.(onAc := None); }
      ghost var was := cfg.profiles;
      SetPlan(name, None);
      if which == 1 {
        cfg := cfg.(onBattery := Some(name));
      } else if which == 2 {
        cfg := cfg.(onAc := Some(name));
      } else if 3 <= which <= 5 {
        SetPlanTwice(was, name, None, Some(PLANS[which - 3]));
        SetPlan(name, Some(PLANS[which - 3]));
      }
      Save(ok);
    }

    method SetPlan(name: string, plan: Option<string>)
      modifies this`cfg
      ensures cfg == old(cfg).(profiles := WithPlan(old(cfg).profiles, name, plan))
    {
      var i := FirstNamed(cfg.profiles, name);
      if i.Some? {
        cfg := cfg.(profiles := cfg.profiles[i.value := cfg.profiles[i.value].(powerPlan := plan)]);
      }
    }

    method OnSaveProfile(edited: Profile, ok: bool)
      modifies this
      ensures cfg == Called(old(cfg), SaveAs(edited))
      ensures file == if ok then Saved(cfg) else old(file)
    {
      var prof := edited.(powermode := 0, powerPlan := None, builtin := false);
      var existing := UserNamed(cfg.profiles, prof.name);
      if existing.Some? {
        cfg := cfg.(profiles := cfg.profiles[existing.value := prof]);
      } else {
        cfg := cfg.(profiles := cfg.profiles + [prof]);
      }
      Save(ok);
    }

    method OnUpdateProfile(idx: int, edited: Profile, ok: bool)
      modifies this
      ensures cfg == Called(old(cfg), Update(idx, edited))
      ensures var changes := 0 <= idx < |old(cfg).profiles| && !old(cfg).profiles[idx].builtin;
              file == if ok && changes then Saved(cfg) else old(file)
    {
      if !(0 <= idx < |cfg.profiles|) || cfg.profiles[idx].builtin { return; }
      var p := cfg.profiles[idx];
      p := p.(curve := edited.curve, pl1 := edited.pl1, pl2 := edited.pl2, tau := edited.tau);
      p := p.(fanFullspeed := edited.fanFullspeed, powermode := edited.powermode);
      cfg := cfg.(profiles := cfg.profiles[idx := p]);
      Save(ok);
    }

    method OnDeleteProfile(idx: int, ok: bool)
      modifies this
      ensures cfg == Called(old(cfg), Delete(idx))
      ensures var changes := 0 <= idx < |old(cfg).profiles| && !old(cfg).profiles[idx].builtin;
              file == if ok && changes then Saved(cfg) else old(file)
    {
      if !(0 <= idx < |cfg.profiles|) || cfg.profiles[idx].builtin { return; }
      var name := cfg.profiles[idx].name;
      cfg := cfg.(profiles := cfg.profiles[..idx] + cfg.profiles[idx + 1..]);
      cfg := cfg.(bindings := Retain(cfg.bindings, (b: Binding) => b.1 != name));
      Save(ok);
    }
  }

  lemma SetPlanTwice(ps: seq<Profile>, name: string, first: Option<string>, second: Option<string>)
    ensures WithPlan(WithPlan(ps, name, first), name, second) == WithPlan(ps, name, second)
  {
    PlanKeepsNames(ps, name, first);
    var qs := WithPlan(ps, name, first);
    var i, j := FirstNamed(ps, name), FirstNamed(qs, name);
    if i.Some? {
      assert qs[i.value].name == name;
      assert j.Some? && j.value == i.value;
      assert WithPlan(qs, name, second) == WithPlan(ps, name, second);
    }
  }

  /** Setting a plan changes nothing else of any profile. */
  lemma PlanKeepsNames(ps: seq<Profile>, name: string, plan: Option<string>)
    ensures var qs := WithPlan(ps, name, plan);
            forall i | 0 <= i < |ps| :: qs[i] == ps[i].(powerPlan := qs[i].powerPlan)
  {
  }

  // ---- what every run of callbacks keeps ----

  /** The bindings are a partial map from modes to profiles in which no profile
      appears twice. */
  ghost predicate OneToOne(bs: seq<Binding>)
  {
    forall i, j | 0 <= i < j < |bs| :: bs[i].0 != bs[j].0 && bs[i].1 != bs[j].1
  }

  predicate HasName(ps: seq<Profile>, name: string) { exists i | 0 <= i < |ps| :: ps[i].name == name }

  /** No binding dangles. */
  ghost predicate Bound(ps: seq<Profile>, bs: seq<Binding>)
  {
    forall b | b in bs :: b.0 in MODES && HasName(ps, b.1)
  }

  /** The list is the built-in profiles, each unchanged but for the plan it follows,
      and then the user's, all differently named. */
  ghost predicate Listed(builtins: seq<Profile>, ps: seq<Profile>)
  {
    && |builtins| <= |ps|
    && (forall i | 0 <= i < |builtins| :: ps[i].builtin && ps[i] == builtins[i].(powerPlan := ps[i].powerPlan))
    && (forall i | |builtins| <= i < |ps| :: !ps[i].builtin)
    && (forall i, j | |builtins| <= i < j < |ps| :: ps[i].name != ps[j].name)
  }

  /** No profile name follows two sources at once. */
  ghost predicate OneSource(cfg: Config)
  {
    && (cfg.onBattery.Some? ==> cfg.onBattery != cfg.onAc)
    && (forall i | 0 <= i < |cfg.profiles| :: Followed(cfg, i) ==> cfg.profiles[i].powerPlan.None?)
  }

  /** Profile i is the first of its name, and the name follows battery or AC. */
  ghost predicate Followed(cfg: Config, i: nat)
    requires i < |cfg.profiles|
  {
    var name := Some(cfg.profiles[i].name);
    FirstNamed(cfg.profiles, name.value) == Some(i) && (cfg.onBattery == name || cfg.onAc == name)
  }

  ghost predicate Good(builtins: seq<Profile>, cfg: Config)
  {
    && Listed(builtins, cfg.profiles)
    && OneToOne(cfg.bindings)
    && Bound(cfg.profiles, cfg.bindings)
    && OneSource(cfg)
  }

  lemma {:induction false} RetainOneToOne(bs: seq<Binding>, keep: Binding -> bool)
    requires OneToOne(bs)
    ensures OneToOne(Retain(bs, keep))
    decreases |bs|
  {
    if bs != [] {
      var rest := Retain(bs[1..], keep);
      RetainOneToOne(bs[1..], keep);
      forall j | 0 <= j < |rest|
        ensures rest[j].0 != bs[0].0 && rest[j].1 != bs[0].1
      {
        RetainKeeps(bs[1..], keep, rest[j]);
        assert rest[j] in rest;
        var k :| 0 <= k < |bs[1..]| && bs[1..][k] == rest[j];
        assert bs[k + 1] == rest[j];
      }
    }
  }

  lemma BindKeepsMap(ps: seq<Profile>, bs: seq<Binding>, name: string)
    requires OneToOne(bs) && Bound(ps, bs)
    ensures var r := WithoutName(bs, name);
            OneToOne(r) && Bound(ps, r) && forall b | b in r :: b.1 != name
  {
    var keep := (b: Binding) => b.1 != name;
    RetainOneToOne(bs, keep);
    forall b | b in Retain(bs, keep)
      ensures b in bs && b.1 != name
    {
      RetainKeeps(bs, keep, b);
    }
  }

  lemma BindProfileKeeps(builtins: seq<Profile>, cfg: Config, idx: int, modeIdx: int)
    requires Good(builtins, cfg)
    ensures Good(builtins, BindProfile(cfg, idx, modeIdx))
  {
    if 0 <= idx < |cfg.profiles| {
      var name := cfg.profiles[idx].name;
      BindKeepsMap(cfg.profiles, cfg.bindings, name);
      var bs := WithoutName(cfg.bindings, name);
      if 0 < modeIdx <= |MODES| {
        var m := MODES[modeIdx - 1];
        var keep := (b: Binding) => b.0 != m;
        RetainOneToOne(bs, keep);
        forall b | b in Retain(bs, keep)
          ensures b in bs && b.0 != m
        {
          RetainKeeps(bs, keep, b);
        }
        var r := Retain(bs, keep);
        assert forall i | 0 <= i < |r| :: r[i] in r;
        assert OneToOne(r + [(m, name)]);
      }
      var c := BindProfile(cfg, idx, modeIdx);
      assert forall i | 0 <= i < |c.profiles| :: Followed(c, i) ==> Followed(cfg, i);
    }
  }

  lemma FirstNamedIs(ps: seq<Profile>, name: string, i: nat)
    requires i < |ps| && ps[i].name == name && forall j | 0 <= j < i :: ps[j].name != name
    ensures FirstNamed(ps, name) == Some(i)
  {
    assert ps[i] in ps;
  }

  lemma SameNamesSameFirst(ps: seq<Profile>, qs: seq<Profile>, name: string)
    requires |ps| == |qs| && forall i | 0 <= i < |ps| :: ps[i].name == qs[i].name
    ensures FirstNamed(ps, name) == FirstNamed(qs, name)
  {
    match FirstNamed(ps, name)
    case Some(i) => FirstNamedIs(qs, name, i);
    case None => assert forall q | q in qs :: q.name != name;
  }

  lemma SameNamesBound(ps: seq<Profile>, qs: seq<Profile>, bs: seq<Binding>)
    requires Bound(ps, bs) && |ps| <= |qs| && forall i | 0 <= i < |ps| :: qs[i].name == ps[i].name
    ensures Bound(qs, bs)
  {
    forall b | b in bs
      ensures HasName(qs, b.1)
    {
      var i :| 0 <= i < |ps| && ps[i].name == b.1;
      assert qs[i].name == b.1;
    }
  }

  lemma BindPowerSourceKeeps(builtins: seq<Profile>, cfg: Config, idx: int, which: int)
    requires Good(builtins, cfg)
    ensures Good(builtins, BindPowerSource(cfg, idx, which))
  {
    if 0 <= idx < |cfg.profiles| {
      SameNamesBound(cfg.profiles, BindPowerSource(cfg, idx, which).profiles, cfg.bindings);
      BindPowerSourceKeepsOne(cfg, idx, which);
    }
  }

  lemma BindPowerSourceKeepsOne(cfg: Config, idx: nat, which: int)
    requires OneSource(cfg) && idx < |cfg.profiles|
    ensures OneSource(BindPowerSource(cfg, idx, which))
  {
    var c := BindPowerSource(cfg, idx, which);
    assert forall i | 0 <= i < |c.profiles| :: c.profiles[i].name == cfg.profiles[i].name;
    forall i | 0 <= i < |c.profiles| && Followed(c, i)
      ensures c.profiles[i].powerPlan.None?
    {
      SameNamesSameFirst(cfg.profiles, c.profiles, c.profiles[i].name);
      if c.profiles[i].name != cfg.profiles[idx].name {
        assert Followed(cfg, i);
      }
    }
  }

  lemma SaveProfileKeeps(builtins: seq<Profile>, cfg: Config, edited: Profile)
    requires Good(builtins, cfg)
    ensures Good(builtins, SaveProfile(cfg, edited))
  {
    var c := SaveProfile(cfg, edited);
    var n := |cfg.profiles|;
    assert forall i | 0 <= i < n :: c.profiles[i].name == cfg.profiles[i].name;
    SameNamesBound(cfg.profiles, c.profiles, cfg.bindings);
    if UserNamed(cfg.profiles, edited.name).None? {
      assert forall i | |builtins| <= i < n :: cfg.profiles[i] in cfg.profiles;
    }
    forall i | 0 <= i < |c.profiles| && Followed(c, i)
      ensures c.profiles[i].powerPlan.None?
    {
      if i < n {
        FirstNamedIs(cfg.profiles, c.profiles[i].name, i);
        assert Followed(cfg, i);
      }
    }
  }

  lemma UpdateProfileKeeps(builtins: seq<Profile>, cfg: Config, idx: int, edited: Profile)
    requires Good(builtins, cfg)
    ensures Good(builtins, UpdateProfile(cfg, idx, edited))
  {
    var c := UpdateProfile(cfg, idx, edited);
    assert forall i | 0 <= i < |c.profiles| ::
      c.profiles[i].name == cfg.profiles[i].name && c.profiles[i].powerPlan == cfg.profiles[i].powerPlan;
    SameNamesBound(cfg.profiles, c.profiles, cfg.bindings);
    forall i | 0 <= i < |c.profiles| && Followed(c, i)
      ensures c.profiles[i].powerPlan.None?
    {
      SameNamesSameFirst(cfg.profiles, c.profiles, c.profiles[i].name);
      assert Followed(cfg, i);
    }
  }

  lemma DeleteProfileKeeps(builtins: seq<Profile>, cfg: Config, idx: int)
    requires Good(builtins, cfg)
    ensures Good(builtins, DeleteProfile(cfg, idx))
  {
    if 0 <= idx < |cfg.profiles| && !cfg.profiles[idx].builtin {
      var c := DeleteProfile(cfg, idx);
      BindKeepsMap(cfg.profiles, cfg.bindings, cfg.profiles[idx].name);
      assert idx >= |builtins|;
      forall b | b in c.bindings
        ensures HasName(c.profiles, b.1)
      {
        OthersKeepTheirName(cfg, idx, b.1);
      }
      DeleteProfileKeepsOne(cfg, idx);
    }
  }

  lemma DeleteProfileKeepsOne(cfg: Config, idx: nat)
    requires OneSource(cfg) && idx < |cfg.profiles| && !cfg.profiles[idx].builtin
    requires forall j | idx < j < |cfg.profiles| :: cfg.profiles[j].name != cfg.profiles[idx].name
    ensures OneSource(DeleteProfile(cfg, idx))
  {
    var c := DeleteProfile(cfg, idx);
    forall i | 0 <= i < |c.profiles| && Followed(c, i)
      ensures c.profiles[i].powerPlan.None?
    {
      StillFirst(cfg, idx, i);
      assert Followed(cfg, if i < idx then i else i + 1);
    }
  }

  lemma OthersKeepTheirName(cfg: Config, idx: nat, name: string)
    requires idx < |cfg.profiles| && !cfg.profiles[idx].builtin
    requires HasName(cfg.profiles, name) && name != cfg.profiles[idx].name
    ensures HasName(DeleteProfile(cfg, idx).profiles, name)
  {
    var i :| 0 <= i < |cfg.profiles| && cfg.profiles[i].name == name;
    assert DeleteProfile(cfg, idx).profiles[if i < idx then i else i - 1].name == name;
  }

  /** What is first of its name after a user's profile is deleted was so before. */
  lemma StillFirst(cfg: Config, idx: nat, i: nat)
    requires idx < |cfg.profiles| && !cfg.profiles[idx].builtin
    requires forall j | idx < j < |cfg.profiles| :: cfg.profiles[j].name != cfg.profiles[idx].name
    requires var ps := DeleteProfile(cfg, idx).profiles;
             i < |ps| && FirstNamed(ps, ps[i].name) == Some(i)
    ensures var k := if i < idx then i else i + 1; FirstNamed(cfg.profiles, cfg.profiles[k].name) == Some(k)
  {
    var ps := DeleteProfile(cfg, idx).profiles;
    var k := if i < idx then i else i + 1;
    forall j | 0 <= j < k
      ensures cfg.profiles[j].name != cfg.profiles[k].name
    {
      if j != idx { assert ps[if j < idx then j else j - 1] == cfg.profiles[j]; }
    }
    FirstNamedIs(cfg.profiles, cfg.profiles[k].name, k);
  }

  // ---- whole sessions ----

  /** The running configuration and the file behind it. */
  datatype Session = Session(cfg: Config, file: Config)

  /** A callback whose save may or may not land, or the program starting again. */
  datatype Step = Call(c: Callback, saved: bool) | Restart

  function Stepped(builtins: seq<Profile>, s: Session, e: Step): Session
  {
    match e
    case Call(c, saved) =>
      var cfg := Called(s.cfg, c);
      Session(cfg, if saved then Saved(cfg) else s.file)
    case Restart => s.(cfg := Loaded(builtins, s.file))
  }

  function Run(builtins: seq<Profile>, s: Session, es: seq<Step>): Session
    decreases |es|
  {
    if es == [] then s else Run(builtins, Stepped(builtins, s, es[0]), es[1..])
  }

  ghost predicate AreBuiltins(builtins: seq<Profile>)
  {
    forall p | p in builtins :: p.builtin && p.powerPlan.None?
  }

  lemma CallbackKeeps(builtins: seq<Profile>, cfg: Config, c: Callback)
    requires Good(builtins, cfg)
    ensures Good(builtins, Called(cfg, c))
  {
    match c
    case Bind(idx, modeIdx) => BindProfileKeeps(builtins, cfg, idx, modeIdx);
    case BindSource(idx, which) => BindPowerSourceKeeps(builtins, cfg, idx, which);
    case SaveAs(edited) => SaveProfileKeeps(builtins, cfg, edited);
    case Update(idx, edited) => UpdateProfileKeeps(builtins, cfg, idx, edited);
    case Delete(idx) => DeleteProfileKeeps(builtins, cfg, idx);
    case Persist(on) =>
      assert forall i | 0 <= i < |cfg.profiles| :: Followed(SetPersist(cfg, on), i) == Followed(cfg, i);
  }

  /** What loading a saved configuration gives back. */
  lemma LoadAfterSave(builtins: seq<Profile>, cfg: Config)
    requires AreBuiltins(builtins) && Listed(builtins, cfg.profiles)
    ensures Loaded(builtins, Saved(cfg)) == cfg.(profiles := builtins + cfg.profiles[|builtins|..])
  {
    var users := cfg.profiles[|builtins|..];
    assert cfg.profiles == cfg.profiles[..|builtins|] + users;
    UsersOf(cfg.profiles[..|builtins|], users);
    UsersOf([], users);
    assert [] + users == users;
  }

  lemma UsersOf(builtins: seq<Profile>, users: seq<Profile>)
    requires forall p | p in builtins :: p.builtin
    requires forall p | p in users :: !p.builtin
    ensures Users(builtins + users) == users
  {
    var keep := (p: Profile) => !p.builtin;
    RetainAppend(builtins, users, keep);
    RetainNone(builtins, keep);
    RetainAll(users, keep);
    assert Users(builtins + users) == Retain(builtins + users, keep);
  }

  /** Saving and loading is the identity exactly when no built-in profile follows a
      plan: that one change a callback makes to built-in profiles is not written. */
  lemma SavedConfigSurvivesIff(builtins: seq<Profile>, cfg: Config)
    requires AreBuiltins(builtins) && Listed(builtins, cfg.profiles)
    ensures Loaded(builtins, Saved(cfg)) == cfg
            <==> forall i | 0 <= i < |builtins| :: cfg.profiles[i].powerPlan.None?
  {
    LoadAfterSave(builtins, cfg);
    var n := |builtins|;
    if forall i | 0 <= i < n :: cfg.profiles[i].powerPlan.None? {
      forall i | 0 <= i < n
        ensures cfg.profiles[i] == builtins[i]
      {
        assert builtins[i] in builtins;
      }
      assert cfg.profiles == builtins + cfg.profiles[n..];
    } else if Loaded(builtins, Saved(cfg)) == cfg {
      forall i | 0 <= i < n
        ensures cfg.profiles[i].powerPlan.None?
      {
        assert (builtins + cfg.profiles[n..])[i] == builtins[i];
        assert builtins[i] in builtins;
      }
    }
  }

  lemma ReloadKeeps(builtins: seq<Profile>, cfg: Config)
    requires AreBuiltins(builtins) && Good(builtins, cfg)
    ensures Good(builtins, Loaded(builtins, Saved(cfg)))
  {
    LoadAfterSave(builtins, cfg);
    var c := Loaded(builtins, Saved(cfg));
    forall i | 0 <= i < |c.profiles|
      ensures c.profiles[i].name == cfg.profiles[i].name
      ensures i < |builtins| ==> c.profiles[i] == builtins[i] && c.profiles[i].builtin && c.profiles[i].powerPlan.None?
      ensures i >= |builtins| ==> c.profiles[i] == cfg.profiles[i]
    {
      if i < |builtins| { assert builtins[i] in builtins; }
    }
    SameNamesBound(cfg.profiles, c.profiles, cfg.bindings);
    forall i | 0 <= i < |c.profiles| && Followed(c, i)
      ensures c.profiles[i].powerPlan.None?
    {
      SameNamesSameFirst(cfg.profiles, c.profiles, c.profiles[i].name);
      if i >= |builtins| { assert Followed(cfg, i); }
    }
  }

  /** Whatever is clicked in whatever order, whichever saves fail, and however often the
      program is restarted: bindings stay one-to-one and never dangle, no name follows
      two sources, and the list keeps its shape. */
  lemma {:induction false} RunStaysGood(builtins: seq<Profile>, s: Session, es: seq<Step>)
    requires AreBuiltins(builtins)
    requires Good(builtins, s.cfg) && Good(builtins, Loaded(builtins, s.file))
    ensures var end := Run(builtins, s, es);
            Good(builtins, end.cfg) && Good(builtins, Loaded(builtins, end.file))
    decreases |es|
  {
    if es != [] {
      if es[0].Call? {
        CallbackKeeps(builtins, s.cfg, es[0].c);
        ReloadKeeps(builtins, Called(s.cfg, es[0].c));
      }
      RunStaysGood(builtins, Stepped(builtins, s, es[0]), es[1..]);
    }
  }

  /** A first start, without a file, is good. */
  lemma FirstStartIsGood(builtins: seq<Profile>)
    requires AreBuiltins(builtins)
    ensures Good(builtins, Loaded(builtins, Config([], [], None, None, false)))
  {
    assert builtins + [] == builtins;
    forall i | 0 <= i < |builtins|
      ensures builtins[i].builtin && builtins[i].powerPlan.None?
    {
      assert builtins[i] in builtins;
    }
  }

  // ---- looking up ----

  /** `bindings.iter().find(|(m, _)| *m == mode)` */
  function BoundName(bs: seq<Binding>, mode: int): Option<string>
  {
    match Position(bs, (b: Binding) => b.0 == mode)
    case None => None
    case Some(i) => Some(bs[i].1)
  }

  lemma BoundNameIs(bs: seq<Binding>, mode: int, name: string)
    requires OneToOne(bs)
    ensures BoundName(bs, mode) == Some(name) <==> (mode, name) in bs
  {
    var r := Position(bs, (b: Binding) => b.0 == mode);
    if (mode, name) in bs {
      var i :| 0 <= i < |bs| && bs[i] == (mode, name);
      assert r.Some?;
      assert r.value == i;
    }
  }

  /** As a map from modes to names, binding a profile to a mode sets that mode, takes
      the profile away from any other mode, and leaves the rest alone. */
  lemma BindIsMapUpdate(cfg: Config, idx: int, modeIdx: int, mode: int)
    requires OneToOne(cfg.bindings)
    requires 0 <= idx < |cfg.profiles|
    ensures var name, was := cfg.profiles[idx].name, BoundName(cfg.bindings, mode);
            BoundName(BindProfile(cfg, idx, modeIdx).bindings, mode)
            == if 0 < modeIdx <= |MODES| && mode == MODES[modeIdx - 1] then Some(name)
               else if was == Some(name) then None else was
  {
    var name, was := cfg.profiles[idx].name, BoundName(cfg.bindings, mode);
    var bs := BindProfile(cfg, idx, modeIdx).bindings;
    BindKeepsOneToOne(cfg, idx, modeIdx);
    var now := BoundName(bs, mode);
    if now.Some? {
      BoundNameIs(bs, mode, now.value);
      BindMembers(cfg, idx, modeIdx, (mode, now.value));
      BoundNameIs(cfg.bindings, mode, now.value);
    }
    if was.Some? {
      BoundNameIs(cfg.bindings, mode, was.value);
      BindMembers(cfg, idx, modeIdx, (mode, was.value));
      BoundNameIs(bs, mode, was.value);
    }
    BindMembers(cfg, idx, modeIdx, (mode, name));
    BoundNameIs(bs, mode, name);
  }

  lemma BindMembers(cfg: Config, idx: int, modeIdx: int, b: Binding)
    requires 0 <= idx < |cfg.profiles|
    ensures var name, bound := cfg.profiles[idx].name, 0 < modeIdx <= |MODES|;
            b in BindProfile(cfg, idx, modeIdx).bindings <==>
              || (b in cfg.bindings && b.1 != name && (bound ==> b.0 != MODES[modeIdx - 1]))
              || (bound && b == (MODES[modeIdx - 1], name))
  {
    var name := cfg.profiles[idx].name;
    RetainKeeps(cfg.bindings, (b: Binding) => b.1 != name, b);
    if 0 < modeIdx <= |MODES| {
      var m := MODES[modeIdx - 1];
      RetainKeeps(WithoutName(cfg.bindings, name), (b: Binding) => b.0 != m, b);
    }
  }

  lemma BindKeepsOneToOne(cfg: Config, idx: int, modeIdx: int)
    requires OneToOne(cfg.bindings)
    ensures OneToOne(BindProfile(cfg, idx, modeIdx).bindings)
  {
    if 0 <= idx < |cfg.profiles| {
      var name := cfg.profiles[idx].name;
      var bs := WithoutName(cfg.bindings, name);
      RetainOneToOne(cfg.bindings, (b: Binding) => b.1 != name);
      if 0 < modeIdx <= |MODES| {
        var m := MODES[modeIdx - 1];
        var r := WithoutMode(bs, m);
        RetainOneToOne(bs, (b: Binding) => b.0 != m);
        forall i | 0 <= i < |r|
          ensures r[i].0 != m && r[i].1 != name
        {
          assert r[i] in r;
          RetainKeeps(bs, (b: Binding) => b.0 != m, r[i]);
          RetainKeeps(cfg.bindings, (b: Binding) => b.1 != name, r[i]);
        }
      }
    }
  }

  /** A name in a binding means the profile it was made for, unless a user's profile
      carries a built-in's name: the built-in then answers for it. */
  lemma NameMeansProfileIff(builtins: seq<Profile>, cfg: Config, i: nat)
    requires Listed(builtins, cfg.profiles) && i < |cfg.profiles|
    requires forall j, k | 0 <= j < k < |builtins| :: builtins[j].name != builtins[k].name
    ensures FirstNamed(cfg.profiles, cfg.profiles[i].name) == Some(i)
            <==> i < |builtins| || !HasName(builtins, cfg.profiles[i].name)
  {
    var ps, name := cfg.profiles, cfg.profiles[i].name;
    if i >= |builtins| && HasName(builtins, name) {
      var j :| 0 <= j < |builtins| && builtins[j].name == name;
      assert ps[j].name == name;
    } else {
      forall j | 0 <= j < i
        ensures ps[j].name != name
      {
        if j < |builtins| { assert builtins[j].name == ps[j].name; }
      }
      FirstNamedIs(ps, name, i);
    }
  }

  // ---- what deleting leaves behind ----

  predicate Dangles(cfg: Config, source: Option<string>)
  {
    source.Some? && !HasName(cfg.profiles, source.value)
  }

  /** Deleting a profile leaves a power source dangling exactly when that source was
      bound to its name and no built-in profile shares the name. */
  lemma DeleteLeavesDanglingIff(builtins: seq<Profile>, cfg: Config, idx: int, source: Option<string>)
    requires Listed(builtins, cfg.profiles) && 0 <= idx < |cfg.profiles|
    requires source == cfg.onBattery || source == cfg.onAc
    requires !Dangles(cfg, source)
    ensures Dangles(DeleteProfile(cfg, idx), source) <==>
              && !cfg.profiles[idx].builtin && source == Some(cfg.profiles[idx].name)
              && !HasName(builtins, cfg.profiles[idx].name)
  {
    var c := DeleteProfile(cfg, idx);
    if !cfg.profiles[idx].builtin && source.Some? {
      assert forall i | 0 <= i < |c.profiles| :: c.profiles[i] == cfg.profiles[if i < idx then i else i + 1];
      var name := cfg.profiles[idx].name;
      if source.value != name {
        var i :| 0 <= i < |cfg.profiles| && cfg.profiles[i].name == source.value;
        assert c.profiles[if i < idx then i else i - 1].name == source.value;
      } else if HasName(builtins, name) {
        var j :| 0 <= j < |builtins| && builtins[j].name == name;
        assert c.profiles[j].name == name;
      } else {
        forall i | 0 <= i < |c.profiles|
          ensures c.profiles[i].name != name
        {
          if i < |builtins| { assert builtins[i].name == c.profiles[i].name; }
        }
      }
    }
  }
}
