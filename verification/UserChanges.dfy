/** The keyboard backlight daemon and its user: whoever changes the brightness while the
    daemon has dimmed takes over, and what the user chose is what the hardware keeps. */
module UserChanges {
  import opened MachineInts
  import opened IdleDimmer

  /** The next signal is none of the daemon's echoes as far as it can tell. */
  predicate News(w: World)
  {
    w.wire != [] && (w.bl.own == [] || w.bl.own[0] != w.wire[0].value)
  }

  /** The user's choice rather than KDE's dimming: the Fn key, or any value but 0. */
  predicate Chosen(s: Signal) { s.isInternal || s.value != 0 }

  // ---- a change while dimmed ----

  /** News while dimmed writes nothing. The daemon gives the keyboard up exactly when the
      news is a choice: it stops being dimmed and remembers the value, and a later resume,
      whether or not its call would succeed, does nothing at all. */
  lemma TakenOverIff(w: World, handled: bool, resumed: bool)
    requires w.bl.dimmed && News(w)
    ensures var s, w' := w.wire[0], Moved(w, Deliver(handled));
            && w'.hw == w.hw && w'.wire == w.wire[1..] && w'.bl.own == w.bl.own
            && (!w'.bl.dimmed <==> Chosen(s))
            && w'.bl.level == (if Chosen(s) then s.value else w.bl.level)
            && (Moved(w', GoResume(resumed)) == w' <==> Chosen(s))
  {
  }

  /** From a lit keyboard: idle dims it, the user sets it to `value` by key or from outside,
      both signals are handled, and the resume leaves the user's value. */
  lemma UserSettingSurvivesResume(lit: int, value: int, byKey: bool, resumed: bool)
    requires lit > 0 && (byKey || value != 0)
    ensures var dark := Moved(Moved(Moved(Start(lit), GoIdle(true)), Deliver(true)), Foreign(value, byKey));
            && dark.bl.dimmed
            && Moved(Moved(dark, Deliver(true)), GoResume(resumed)) == Start(value)
  {
    var off := Moved(Start(lit), GoIdle(true));
    assert off == World(Bl(lit, true, [0], false, false), 0, [Signal(0, false, true)], false);
    var dark := Moved(Moved(off, Deliver(true)), Foreign(value, byKey));
    assert dark == World(Bl(lit, true, [], false, false), value, [Signal(value, byKey, false)], false);
  }

  // ---- a change while not dimmed ----

  /** Outside of the race with KDE, news from outside is remembered, and nothing else
      changes; the next idle and resume bring the hardware back to what it showed. */
  lemma OutsideChangeIsRemembered(w: World, handled: bool)
    requires News(w) && !w.bl.dimmed && !w.wire[0].isInternal && !(w.wire[0].value == 0 && Racing(w))
    ensures Moved(w, Deliver(handled)) == w.(bl := w.bl.(level := w.wire[0].value), wire := w.wire[1..])
  {
  }

  lemma IdleThenResumeRestores(w: World)
    requires w.hw > 0
    ensures var dark := Moved(w, GoIdle(true));
            && dark.hw == 0 && dark.bl.dimmed
            && Moved(dark, GoResume(true)).hw == w.hw && !Moved(dark, GoResume(true)).bl.dimmed
  {
  }

  // ---- the Fn key disarms ----

  /** Nothing to restore, nothing to expect. */
  predicate Disarmed(b: Bl) { !b.dimmed && !b.kdeDimmed && !b.armed }

  /** The last value anybody but the daemon wrote. */
  function LastForeign(hw: int, ms: seq<Move>): int
  {
    if ms == [] then hw
    else if ms[|ms| - 1].Foreign? then ms[|ms| - 1].value
    else LastForeign(hw, ms[..|ms| - 1])
  }

  /** Until the next idle a disarmed daemon writes nothing: whatever is written, zeros
      included, stays. */
  lemma {:induction false} DisarmedNeverWrites(w: World, ms: seq<Move>)
    requires Disarmed(w.bl) && forall m | m in ms :: !m.GoIdle?
    ensures Disarmed(Play(w, ms).bl) && Play(w, ms).hw == LastForeign(w.hw, ms)
    decreases |ms|
  {
    if ms != [] {
      var head, m := ms[..|ms| - 1], ms[|ms| - 1];
      assert m in ms;
      DisarmedNeverWrites(w, head);
    }
  }

  /** The Fn key is the user's word: from then to the next idle, a zero still expected from
      KDE included, the hardware keeps the last value written. */
  lemma FnKeyDisarms(w: World, handled: bool, ms: seq<Move>)
    requires News(w) && w.wire[0].isInternal && forall m | m in ms :: !m.GoIdle?
    ensures var w' := Moved(w, Deliver(handled));
            && w'.bl.level == w.wire[0].value && w'.hw == w.hw
            && Play(w', ms).hw == LastForeign(w.hw, ms)
  {
    DisarmedNeverWrites(Moved(w, Deliver(handled)), ms);
  }

  // ---- a simple keyboard ----

  /** What a user should see of idling: a level, and whether it is hidden. */
  datatype Keyboard = Keyboard(level: int, hidden: bool)

  function Shown(k: Keyboard): int { if k.hidden then 0 else k.level }

  datatype Act = GoesIdle | ComesBack | Sets(value: int, byKey: bool)

  function Acted(k: Keyboard, a: Act): Keyboard
  {
    match a
    case GoesIdle => k.(hidden := k.hidden || k.level > 0)
    case ComesBack => k.(hidden := false)
    case Sets(value, byKey) => Keyboard(value, false)
  }

  function AllActed(k: Keyboard, acts: seq<Act>): Keyboard
  {
    if acts == [] then k else Acted(AllActed(k, acts[..|acts| - 1]), acts[|acts| - 1])
  }

  function MoveOf(a: Act): Move
  {
    match a
    case GoesIdle => GoIdle(true)
    case ComesBack => GoResume(true)
    case Sets(value, byKey) => Foreign(value, byKey)
  }

  /** Each act, and its signals handled before the next. */
  function Settled(w: World, acts: seq<Act>): World
  {
    if acts == [] then w else Drained(Moved(Settled(w, acts[..|acts| - 1]), MoveOf(acts[|acts| - 1])))
  }

  /** Nobody sets 0 from outside a hidden keyboard. */
  predicate NoZeroWhileHidden(k: Keyboard, acts: seq<Act>)
  {
    acts == [] ||
    var head, a := acts[..|acts| - 1], acts[|acts| - 1];
    NoZeroWhileHidden(k, head) && !(AllActed(k, head).hidden && a == Sets(0, false))
  }

  function WorldOf(k: Keyboard): World { World(Bl(k.level, k.hidden, [], false, false), Shown(k), [], false) }

  /** Whatever the idling, the resuming and the user's settings, and in whatever order, the
      daemon and its hardware are the simple keyboard as long as signals are handled in time
      and nobody sets 0 from outside while dimmed. */
  lemma {:induction false} SettledIsSimple(k: Keyboard, acts: seq<Act>)
    requires (k.hidden ==> k.level > 0) && NoZeroWhileHidden(k, acts)
    ensures var k' := AllActed(k, acts); Settled(WorldOf(k), acts) == WorldOf(k') && (k'.hidden ==> k'.level > 0)
    decreases |acts|
  {
    if acts != [] {
      var head, a := acts[..|acts| - 1], acts[|acts| - 1];
      SettledIsSimple(k, head);
      ActIsSimple(AllActed(k, head), a);
    }
  }

  lemma ActIsSimple(k: Keyboard, a: Act)
    requires (k.hidden ==> k.level > 0) && !(k.hidden && a == Sets(0, false))
    ensures Drained(Moved(WorldOf(k), MoveOf(a))) == WorldOf(Acted(k, a))
  {
    var w := Moved(WorldOf(k), MoveOf(a));
    if w.wire != [] {
      assert |w.wire| == 1;
      var w' := Moved(w, Deliver(true));
      assert w'.wire == [] && Drained(w') == w';
    }
  }

  /** The condition cannot be dropped: a 0 from outside is KDE's to the daemon. Resuming
      restores what the user set to 0, and arms. */
  lemma ZeroWhileHiddenIsKde(lit: int)
    requires lit > 0
    ensures var w := Settled(WorldOf(Keyboard(lit, true)), [Sets(0, false), ComesBack]);
            w == World(Bl(lit, false, [], false, true), lit, [], true)
  {
    var start := WorldOf(Keyboard(lit, true));
    var w1 := World(Bl(lit, true, [], true, false), 0, [], false);
    var w0 := Moved(start, Foreign(0, false));
    assert Moved(w0, Deliver(true)) == w1 && Drained(w1) == w1;
    assert Drained(w0) == w1;
    assert [Sets(0, false)][..0] == [] && Settled(start, []) == start;
    assert Settled(start, [Sets(0, false)]) == w1;
    var w2 := Moved(w1, GoResume(true));
    assert w2 == World(Bl(lit, false, [lit], false, true), lit, [Signal(lit, false, true)], true);
    var w3 := Moved(w2, Deliver(true));
    assert w3 == World(Bl(lit, false, [], false, true), lit, [], true) && Drained(w3) == w3;
    assert Drained(w2) == w3;
    assert [Sets(0, false), ComesBack][..1] == [Sets(0, false)];
  }
}
