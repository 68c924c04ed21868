/** How fresh the boot snapshot is: every landing write raises a flag, the poll loop
    takes the flag and saves, and persistence can be switched on and off meanwhile. */
module BootSnapshot {
  import opened MachineInts

  type Nodes = map<string, string>

  /** What the hardware reads, what boot.conf holds, the flag and the setting. */
  datatype Session = Session(live: Nodes, boot: Nodes, changed: bool, persist: bool)

  /** A write by the program changes the nodes in `effect`, which may be more than the
      one written (a mode write reloads the fan table), and may leave other values than
      asked. `Outside` is a change the program did not make. */
  datatype Event =
    | Write(effect: Nodes, lands: bool)
    | Outside(effect: Nodes)
    | Tick(saves: bool)
    | SetPersist(on: bool, saves: bool)

  function TakeAndSave(s: Session, saves: bool): Session
  {
    s.(changed := false, boot := if s.changed && s.persist && saves then s.live else s.boot)
  }

  function Stepped(s: Session, e: Event): Session
  {
    match e
    case Write(effect, lands) => if lands then s.(live := s.live + effect, changed := true) else s
    case Outside(effect) => s.(live := s.live + effect)
    case Tick(saves) => TakeAndSave(s, saves)
    case SetPersist(on, saves) => s.(persist := on, boot := if on && saves then s.live else s.boot)
  }

  function Run(s: Session, es: seq<Event>): Session
    decreases |es|
  {
    if es == [] then s else Run(Stepped(s, es[0]), es[1..])
  }

  class Program {
    var live: Nodes
    var boot: Nodes
    var changed: bool
    var persist: bool

    function Value(): Session
      reads this
    {
      Session(live, boot, changed, persist)
    }

    constructor (live: Nodes, boot: Nodes, persist: bool)
      ensures Value() == Session(live, boot, false, persist)
    {
      this.live, this.boot, this.persist, changed := live, boot, persist, false;
    }

    method WriteNode(effect: Nodes, lands: bool)
      modifies this`live, this`changed
      ensures Value() == Stepped(old(Value()), Write(effect, lands))
    {
      if lands {
        live := live + effect;
        changed := true;
      }
    }

    method TakeChanged() returns (was: bool)
      modifies this`changed
      ensures was == old(changed) && !changed
    {
      was := changed;
      changed := false;
    }

    /** The end of a poll tick, and the last thing before the program exits. */
    method SaveIfChanged(saves: bool)
      modifies this`changed, this`boot
      ensures Value() == Stepped(old(Value()), Tick(saves))
    {
      var was := TakeChanged();
      if was && persist && saves {
        boot := live;
      }
    }

    method OnSetPersist(on: bool, saves: bool)
      modifies this`persist, this`boot
      ensures Value() == Stepped(old(Value()), SetPersist(on, saves))
    {
      persist := on;
      if on && saves {
        boot := live;
      }
    }
  }

  // ---- what the program answers for ----

  /** The nodes whose snapshot the program answers for: those it has written, or that
      were live when persistence came on, and that nothing outside has changed since. */
  function Answerable(s: Session, nodes: set<string>, e: Event): set<string>
  {
    match e
    case Write(effect, lands) => if lands then nodes + effect.Keys else nodes
    case Outside(effect) => nodes - effect.Keys
    case Tick(saves) => nodes
    case SetPersist(on, saves) => if on && saves then s.live.Keys else {}
  }

  function AnswerableAfter(s: Session, nodes: set<string>, es: seq<Event>): set<string>
    decreases |es|
  {
    if es == [] then nodes else AnswerableAfter(Stepped(s, es[0]), Answerable(s, nodes, es[0]), es[1..])
  }

  predicate InBoot(s: Session, n: string)
  {
    n in s.live && n in s.boot && s.boot[n] == s.live[n]
  }

  /** Either a save is still owed, or the snapshot has every one of the nodes right. */
  ghost predicate Fresh(s: Session, nodes: set<string>)
  {
    s.persist && !s.changed ==> forall n | n in nodes :: InBoot(s, n)
  }

  predicate Saves(e: Event) { (e.Tick? ==> e.saves) && (e.SetPersist? ==> e.saves) }

  /** While persistence is off the flag is taken all the same, so what is written then is
      answered for only once it is switched on again. */
  ghost predicate Accountable(s: Session, nodes: set<string>)
  {
    Fresh(s, nodes) && nodes <= s.live.Keys
  }

  lemma StepStaysFresh(s: Session, nodes: set<string>, e: Event)
    requires Accountable(s, nodes) && Saves(e)
    ensures Accountable(Stepped(s, e), Answerable(s, nodes, e))
  {
  }

  /** In every state reachable while saves succeed, whatever is written, changed outside
      or switched, a save is owed or the snapshot equals the live value of everything the
      program answers for. */
  lemma {:induction false} RunStaysFresh(s: Session, nodes: set<string>, es: seq<Event>)
    requires Accountable(s, nodes) && forall e | e in es :: Saves(e)
    ensures Accountable(Run(s, es), AnswerableAfter(s, nodes, es))
    decreases |es|
  {
    if es != [] {
      assert es[0] in es;
      assert forall e | e in es[1..] :: e in es;
      StepStaysFresh(s, nodes, es[0]);
      RunStaysFresh(Stepped(s, es[0]), Answerable(s, nodes, es[0]), es[1..]);
    }
  }

  /** At exit nothing is left unsaved. */
  lemma ExitSavesEverything(s: Session, es: seq<Event>)
    requires forall e | e in es :: Saves(e)
    requires !s.changed && Run(s, es).persist
    ensures var end := Stepped(Run(s, es), Tick(true));
            !end.changed && forall n | n in AnswerableAfter(s, {}, es) :: InBoot(end, n)
  {
    RunStaysFresh(s, {}, es);
    StepStaysFresh(Run(s, es), AnswerableAfter(s, {}, es), Tick(true));
  }

  // ---- when saves fail ----

  /** The nodes written since the last save that succeeded. A tick saves only what a
      raised flag announces, and a failed save has lowered the flag. */
  function Unsaved(s: Session, unsaved: set<string>, e: Event): set<string>
  {
    match e
    case Write(effect, lands) => if lands then unsaved + effect.Keys else unsaved
    case Outside(effect) => unsaved
    case Tick(saves) => if s.changed && s.persist && saves then {} else unsaved
    case SetPersist(on, saves) => if on && saves then {} else unsaved
  }

  function UnsavedAfter(s: Session, unsaved: set<string>, es: seq<Event>): set<string>
    decreases |es|
  {
    if es == [] then unsaved else UnsavedAfter(Stepped(s, es[0]), Unsaved(s, unsaved, es[0]), es[1..])
  }

  /** Every write that lands leaves values the snapshot does not already hold. */
  predicate BringsNews(s: Session, e: Event)
  {
    e.Write? && e.lands ==> forall n | n in e.effect :: n !in s.boot || s.boot[n] != e.effect[n]
  }

  predicate RunBringsNews(s: Session, es: seq<Event>)
    decreases |es|
  {
    es != [] ==> BringsNews(s, es[0]) && RunBringsNews(Stepped(s, es[0]), es[1..])
  }

  ghost predicate RightUnlessUnsaved(s: Session, nodes: set<string>, unsaved: set<string>)
  {
    nodes <= s.live.Keys && forall n | n in nodes && n !in unsaved :: InBoot(s, n)
  }

  ghost predicate RightIffSaved(s: Session, nodes: set<string>, unsaved: set<string>)
  {
    nodes <= s.live.Keys && forall n | n in nodes :: InBoot(s, n) <==> n !in unsaved
  }

  /** Over every run, failing saves included, the snapshot is wrong only about what was
      written since the last save that succeeded; and about exactly that, if every write
      brings news. */
  lemma {:induction false} SnapshotIsRightIffSaved(s: Session, nodes: set<string>, unsaved: set<string>, es: seq<Event>)
    requires RightUnlessUnsaved(s, nodes, unsaved)
    ensures RightUnlessUnsaved(Run(s, es), AnswerableAfter(s, nodes, es), UnsavedAfter(s, unsaved, es))
    ensures RightIffSaved(s, nodes, unsaved) && RunBringsNews(s, es) ==>
              RightIffSaved(Run(s, es), AnswerableAfter(s, nodes, es), UnsavedAfter(s, unsaved, es))
    decreases |es|
  {
    if es != [] {
      SnapshotIsRightIffSaved(Stepped(s, es[0]), Answerable(s, nodes, es[0]), Unsaved(s, unsaved, es[0]), es[1..]);
    }
  }

  /** A failed save is never made up for by ticks alone: the flag is gone. */
  lemma {:induction false} FailedSaveIsNotRetried(s: Session, ticks: seq<Event>)
    requires forall e | e in ticks :: e.Tick?
    ensures Run(Stepped(s, Tick(false)), ticks).boot == s.boot
    decreases |ticks|
  {
    var s1 := Stepped(s, Tick(false));
    if ticks != [] {
      assert ticks[0] in ticks;
      assert forall e | e in ticks[1..] :: e in ticks;
      assert Stepped(s1, ticks[0]) == s1;
      assert Stepped(s1, Tick(false)) == s1;
      FailedSaveIsNotRetried(s1, ticks[1..]);
    }
  }

  /** The next write that lands makes up for it, whichever node it is to. */
  lemma NextWriteCatchesUp(s: Session, effect: Nodes)
    requires s.persist
    ensures var end := Stepped(Stepped(s, Write(effect, true)), Tick(true)); end.boot == end.live
  {
  }

  /** Switching persistence, however often and whether or not its saves succeed, loses no
      write: if it ends on, the next tick saves everything. */
  lemma {:induction false} SwitchingLosesNoWrite(s: Session, switches: seq<Event>)
    requires s.changed && forall e | e in switches :: e.SetPersist?
    ensures var end := Run(s, switches);
            end.changed && end.live == s.live && (end.persist ==> Stepped(end, Tick(true)).boot == s.live)
    decreases |switches|
  {
    if switches != [] {
      assert switches[0] in switches;
      assert forall e | e in switches[1..] :: e in switches;
      SwitchingLosesNoWrite(Stepped(s, switches[0]), switches[1..]);
    }
  }

  /** A tick while persistence is off does: what was written stays out of boot.conf if the
      save on switching it on then fails, through every later tick. */
  lemma TickWhileOffForgets(s: Session, saved: bool, ticks: seq<Event>)
    requires !s.persist && forall e | e in ticks :: e.Tick?
    ensures Run(Stepped(Stepped(s, Tick(saved)), SetPersist(true, false)), ticks).boot == s.boot
  {
    var off := Stepped(s, Tick(saved));
    var on := Stepped(off, SetPersist(true, false));
    assert Stepped(on, Tick(false)) == on;
    FailedSaveIsNotRetried(on, ticks);
  }
}
