/** What saving, updating and deleting a profile do to the list, and what reaches the
    file: stated on the lists themselves. */
module ProfileEdits {
  import opened MachineInts
  import opened Profiles

  /** The edited values under the given name, plan and mode, as a user's profile. */
  function UserProfile(edited: Profile, name: string, mode: int, plan: Option<string>): Profile
  {
    Profile(name, edited.curve, edited.pl1, edited.pl2, edited.tau, mode, edited.fanFullspeed, plan, false)
  }

  /** Everything but the list of profiles is as before. */
  ghost predicate OnlyProfiles(was: Config, now: Config) { now == was.(profiles := now.profiles) }

  /** The first user's profile of the name; nobody's if there is none. */
  ghost predicate IsUserNamed(ps: seq<Profile>, name: string, i: nat)
  {
    && i < |ps| && ps[i].name == name && !ps[i].builtin
    && forall j | 0 <= j < i :: ps[j].builtin || ps[j].name != name
  }

  /** Saving under a name replaces the user's profile of that name where it stands, mode
      and plan forgotten, or appends one. Built-in profiles of the name are passed over. */
  lemma SavedAs(cfg: Config, edited: Profile)
    ensures var c, saved := Called(cfg, SaveAs(edited)), UserProfile(edited, edited.name, 0, None);
            && OnlyProfiles(cfg, c)
            && (forall i: nat | IsUserNamed(cfg.profiles, edited.name, i) :: c.profiles == cfg.profiles[i := saved])
            && ((forall p | p in cfg.profiles :: p.builtin || p.name != edited.name) ==>
                  c.profiles == cfg.profiles + [saved])
  {
    var r := UserNamed(cfg.profiles, edited.name);
    if r.Some? {
      assert cfg.profiles[r.value] in cfg.profiles;
      forall i: nat | IsUserNamed(cfg.profiles, edited.name, i)
        ensures i == r.value
      {
        UserNamedIs(cfg.profiles, edited.name, i);
      }
    } else {
      forall i: nat | i < |cfg.profiles|
        ensures !IsUserNamed(cfg.profiles, edited.name, i)
      {
        assert cfg.profiles[i] in cfg.profiles;
      }
    }
  }

  lemma UserNamedIs(ps: seq<Profile>, name: string, i: nat)
    requires IsUserNamed(ps, name, i)
    ensures UserNamed(ps, name) == Some(i)
  {
    var want := (p: Profile) => p.name == name && !p.builtin;
    assert want(ps[i]) && ps[i] in ps;
    var r := Position(ps, (p: Profile) => p.name == name && !p.builtin);
    assert r.Some? ==> want(ps[r.value]) && forall j | 0 <= j < r.value :: !want(ps[j]);
  }

  /** After saving, the list holds exactly one user's profile of the name, the saved one,
      if it held at most one before. */
  lemma SavedAsIsTheOnlyOne(builtins: seq<Profile>, cfg: Config, edited: Profile, p: Profile)
    requires Listed(builtins, cfg.profiles)
    requires p in Called(cfg, SaveAs(edited)).profiles && !p.builtin && p.name == edited.name
    ensures p == UserProfile(edited, edited.name, 0, None)
  {
    var c := Called(cfg, SaveAs(edited));
    var k :| 0 <= k < |c.profiles| && c.profiles[k] == p;
    SavedAs(cfg, edited);
    if exists q :: q in cfg.profiles && !q.builtin && q.name == edited.name {
      var i := UserNamed(cfg.profiles, edited.name).value;
      forall j | 0 <= j < i
        ensures cfg.profiles[j].builtin || cfg.profiles[j].name != edited.name
      {
        if !cfg.profiles[j].builtin { assert |builtins| <= j < i; }
      }
      assert IsUserNamed(cfg.profiles, edited.name, i);
    }
  }

  /** Updating rewrites a user's profile where it stands, keeping name and plan, and taking
      the mode the machine is in; a built-in profile is refused. */
  lemma Updated(cfg: Config, idx: int, edited: Profile)
    ensures var c := Called(cfg, Update(idx, edited));
            && OnlyProfiles(cfg, c)
            && (if 0 <= idx < |cfg.profiles| && !cfg.profiles[idx].builtin then
                  var p := cfg.profiles[idx];
                  c.profiles == cfg.profiles[idx := UserProfile(edited, p.name, edited.powermode, p.powerPlan)]
                else c == cfg)
  {
  }

  /** Deleting takes exactly one user's profile out of the list, and exactly the bindings
      of its name, in order; a power source bound to the name is left dangling. */
  lemma Deleted(cfg: Config, idx: nat, b: Binding)
    requires idx < |cfg.profiles| && !cfg.profiles[idx].builtin
    ensures var c := Called(cfg, Delete(idx));
            && |c.profiles| == |cfg.profiles| - 1
            && (forall i | 0 <= i < idx :: c.profiles[i] == cfg.profiles[i])
            && (forall i | idx < i < |cfg.profiles| :: c.profiles[i - 1] == cfg.profiles[i])
            && (b in c.bindings <==> b in cfg.bindings && b.1 != cfg.profiles[idx].name)
            && multiset(c.bindings)[b] == (if b.1 == cfg.profiles[idx].name then 0 else multiset(cfg.bindings)[b])
            && (c.onBattery, c.onAc, c.persist) == (cfg.onBattery, cfg.onAc, cfg.persist)
  {
    var name := cfg.profiles[idx].name;
    RetainKeeps(cfg.bindings, (b: Binding) => b.1 != name, b);
    RetainCounts(cfg.bindings, (b: Binding) => b.1 != name, b);
  }

  lemma {:induction false} RetainCounts<T>(xs: seq<T>, keep: T -> bool, x: T)
    ensures multiset(Retain(xs, keep))[x] == if keep(x) then multiset(xs)[x] else 0
    decreases |xs|
  {
    if xs != [] {
      assert xs == [xs[0]] + xs[1..];
      RetainCounts(xs[1..], keep, x);
    }
  }

  /** Built-in profiles can be neither updated nor deleted. */
  lemma BuiltinsAreRefused(cfg: Config, idx: nat, edited: Profile)
    requires idx < |cfg.profiles| && cfg.profiles[idx].builtin
    ensures Called(cfg, Update(idx, edited)) == cfg && Called(cfg, Delete(idx)) == cfg
  {
  }

  /** The modes a profile can be bound to, by their place in the list of choices. */
  lemma ModesAreLiteral(cfg: Config, idx: nat, choice: nat)
    requires idx < |cfg.profiles| && choice <= 6
    ensures var name, bs := cfg.profiles[idx].name, Called(cfg, Bind(idx, choice)).bindings;
            && ((1, name) in bs <==> choice == 1) && ((2, name) in bs <==> choice == 2)
            && ((3, name) in bs <==> choice == 3) && ((224, name) in bs <==> choice == 4)
            && ((255, name) in bs <==> choice == 5)
  {
    var name := cfg.profiles[idx].name;
    BindMembers(cfg, idx, choice, (1, name));
    BindMembers(cfg, idx, choice, (2, name));
    BindMembers(cfg, idx, choice, (3, name));
    BindMembers(cfg, idx, choice, (224, name));
    BindMembers(cfg, idx, choice, (255, name));
  }

  /** The file holds the user's profiles, in order, and no built-in one. */
  lemma FileHoldsUsers(builtins: seq<Profile>, cfg: Config)
    requires Listed(builtins, cfg.profiles)
    ensures Saved(cfg) == cfg.(profiles := cfg.profiles[|builtins|..])
  {
    var ps, users := cfg.profiles[..|builtins|], cfg.profiles[|builtins|..];
    assert cfg.profiles == ps + users;
    UsersOf(ps, users);
  }

  /** Whatever the file claims to be built in is not: it is dropped, in favour of what the
      program carries. */
  lemma LoadedHolds(builtins: seq<Profile>, file: Config, p: Profile)
    ensures var c := Loaded(builtins, file);
            && OnlyProfiles(file, c)
            && |builtins| <= |c.profiles| && c.profiles[..|builtins|] == builtins
            && (p in c.profiles[|builtins|..] <==> p in file.profiles && !p.builtin)
            && multiset(c.profiles[|builtins|..])[p] == if p.builtin then 0 else multiset(file.profiles)[p]
  {
    var keep := (p: Profile) => !p.builtin;
    RetainKeeps(file.profiles, keep, p);
    RetainCounts(file.profiles, keep, p);
    var c := Loaded(builtins, file);
    assert c.profiles[|builtins|..] == Users(file.profiles) == Retain(file.profiles, keep);
  }
}
