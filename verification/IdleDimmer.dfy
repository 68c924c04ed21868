/** The keyboard backlight daemon: off when idle, back on resume, without mistaking the
    echoes of its own writes, or KDE's dimming, for the user's choice. */
module IdleDimmer {
  import opened MachineInts

  /** The fields of `Backlight`. `armed` is whether reassert_until holds an instant;
      whether that instant is still ahead is an input of each signal. */
  datatype Bl = Bl(level: int, dimmed: bool, own: seq<int>, kdeDimmed: bool, armed: bool)

  /** The state after a handler, and the value it asked UPower for, if any. */
  datatype Reaction = Reaction(bl: Bl, asked: Option<int>)

  /** `set`: a failed call takes its echo back out of the queue. */
  function Set(b: Bl, v: int, ok: bool): Reaction
  {
    Reaction(if ok then b.(own := b.own + [v]) else b, Some(v))
  }

  function OnIdle(b: Bl, cur: Option<int>, ok: bool): Reaction
  {
    if cur.None? || cur.value <= 0 then Reaction(b, None)
    else Set(b.(level := cur.value, dimmed := true), 0, ok)
  }

  function OnResume(b: Bl, ok: bool): Reaction
  {
    if !b.dimmed then Reaction(b, None)
    else
      var r := Set(b.(dimmed := false), b.level, ok);
      if b.kdeDimmed then r.(bl := r.bl.(kdeDimmed := false, armed := true)) else r
  }

  function OnChanged(b: Bl, value: int, isInternal: bool, early: bool, ok: bool): Reaction
  {
    if b.own != [] && b.own[0] == value then Reaction(b.(own := b.own[1..]), None)
    else if isInternal then
      Reaction(b.(level := value, dimmed := false, kdeDimmed := false, armed := false), None)
    else if b.dimmed then
      Reaction(if value == 0 then b.(kdeDimmed := true) else b.(dimmed := false, level := value), None)
    else if value == 0 && b.armed && early then Set(b.(armed := false), b.level, ok)
    else Reaction(b.(level := value), None)
  }

  /** One message of the main loop, with the outcomes of the calls its handler makes.
      `early` says whether the re-assert deadline is still ahead. */
  datatype Event =
    | Idle(cur: Option<int>, ok: bool)
    | Resume(ok: bool)
    | Changed(value: int, isInternal: bool, early: bool, ok: bool)
    | Timeout

  function React(b: Bl, e: Event): Reaction
  {
    match e
    case Idle(cur, ok) => OnIdle(b, cur, ok)
    case Resume(ok) => OnResume(b, ok)
    case Changed(value, isInternal, early, ok) => OnChanged(b, value, isInternal, early, ok)
    case Timeout => Reaction(b, None)
  }

  function Asked(o: Option<int>): seq<int> { if o.Some? then [o.value] else [] }

  class Backlight {
    var level: int
    var dimmed: bool
    var own: seq<int>
    var kdeDimmed: bool
    var armed: bool
    ghost var asked: seq<int>    // every value passed to set_brightness

    function Value(): Bl
      reads this
    {
      Bl(level, dimmed, own, kdeDimmed, armed)
    }

    constructor (initial: int)
      ensures Value() == Bl(initial, false, [], false, false) && asked == []
    {
      level, dimmed, own, kdeDimmed, armed, asked := initial, false, [], false, false, [];
    }

    method SetBrightness(v: int, ok: bool)
      modifies this
      ensures Value() == Set(old(Value()), v, ok).bl && asked == old(asked) + [v]
    {
      own := own + [v];
      asked := asked + [v];
      if !ok {
        own := own[..|own| - 1];
      }
    }

    method HandleIdle(cur: Option<int>, ok: bool)
      modifies this
      ensures var r := OnIdle(old(Value()), cur, ok); Value() == r.bl && asked == old(asked) + Asked(r.asked)
    {
      if cur.None? {
        return;
      }
      if cur.value > 0 {
        level := cur.value;
        dimmed := true;
        SetBrightness(0, ok);
      }
    }

    method HandleResume(ok: bool)
      modifies this
      ensures var r := OnResume(old(Value()), ok); Value() == r.bl && asked == old(asked) + Asked(r.asked)
    {
      if !dimmed {
        return;
      }
      dimmed := false;
      SetBrightness(level, ok);
      if kdeDimmed {
        kdeDimmed := false;
        armed := true;
      }
    }

    method HandleChanged(value: int, isInternal: bool, early: bool, ok: bool)
      modifies this
      ensures var r := OnChanged(old(Value()), value, isInternal, early, ok);
              Value() == r.bl && asked == old(asked) + Asked(r.asked)
    {
      if own != [] && own[0] == value {
        own := own[1..];
        return;
      }
      if isInternal {
        level := value;
        dimmed := false;
        kdeDimmed := false;
        armed := false;
        return;
      }
      if dimmed {
        if value == 0 {
          kdeDimmed := true;
        } else {
          dimmed := false;
          level := value;
        }
        return;
      }
      var racing := armed && early;
      if value == 0 && racing {
        armed := false;
        SetBrightness(level, ok);
      } else {
        level := value;
      }
    }
  }

  // ---- whole runs of the daemon, with no assumption about its environment ----

  function After(b: Bl, es: seq<Event>): Bl
    decreases |es|
  {
    if es == [] then b else React(After(b, es[..|es| - 1]), es[|es| - 1]).bl
  }

  function Idles(es: seq<Event>): nat
  {
    if es == [] then 0 else Idles(es[..|es| - 1]) + if es[|es| - 1].Idle? then 1 else 0
  }

  /** Writes the daemon may still make without another Idle: one to resume and one to
      re-assert for each dimming. */
  function Owed(b: Bl): nat { (if b.dimmed then 2 else 0) + (if b.armed then 1 else 0) }

  /** One message spends at most what it is owed; only an Idle is paid for, with three. */
  lemma ReactionSpends(b: Bl, e: Event)
    requires b.dimmed ==> b.level > 0
    ensures var r := React(b, e);
            && (r.bl.dimmed ==> r.bl.level > 0)
            && |Asked(r.asked)| + Owed(r.bl) <= Owed(b) + if e.Idle? then 3 else 0
  {
  }

  /** The main loop: every message in turn, then the restore on exit. Whatever the
      messages, the daemon never dims with nothing to restore, and asks UPower for a
      change at most three times per Idle, so it cannot fight another writer forever. */
  method Daemon(initial: int, es: seq<Event>, exitOk: bool) returns (bl: Backlight)
    ensures fresh(bl)
    ensures var b := After(Bl(initial, false, [], false, false), es);
            && (b.dimmed ==> b.level > 0)
            && bl.Value() == if b.dimmed then Set(b, b.level, exitOk).bl else b
    ensures |bl.asked| <= 3 * Idles(es)
  {
    bl := new Backlight(initial);
    ghost var start := bl.Value();
    var i := 0;
    while i < |es|
      invariant 0 <= i <= |es| && fresh(bl)
      invariant bl.Value() == After(start, es[..i])
      invariant bl.dimmed ==> bl.level > 0
      invariant |bl.asked| + Owed(bl.Value()) <= 3 * Idles(es[..i])
    {
      assert es[..i + 1][..i] == es[..i];
      ReactionSpends(bl.Value(), es[i]);
      match es[i] {
        case Idle(cur, ok) => bl.HandleIdle(cur, ok);
        case Resume(ok) => bl.HandleResume(ok);
        case Changed(value, isInternal, early, ok) => bl.HandleChanged(value, isInternal, early, ok);
        case Timeout =>
      }
      i := i + 1;
    }
    assert es[..i] == es;
    if bl.dimmed {
      bl.SetBrightness(bl.level, exitOk);
    }
  }

  /** The bound on values: writes of a run, restore included. */
  function AskedBy(b: Bl, es: seq<Event>): nat
    decreases |es|
  {
    if es == [] then 0
    else AskedBy(b, es[..|es| - 1]) + |Asked(React(After(b, es[..|es| - 1]), es[|es| - 1]).asked)|
  }

  lemma {:induction false} WritesAreBounded(b: Bl, es: seq<Event>)
    requires !b.dimmed && !b.armed
    ensures After(b, es).dimmed ==> After(b, es).level > 0
    ensures AskedBy(b, es) + Owed(After(b, es)) <= 3 * Idles(es)
    decreases |es|
  {
    if es != [] {
      WritesAreBounded(b, es[..|es| - 1]);
      ReactionSpends(After(b, es[..|es| - 1]), es[|es| - 1]);
    }
  }

  /** Three per Idle is reached: dim, resume, re-assert against one KDE write. */
  lemma ThreeWritesPerIdle()
    ensures var es := [Idle(Some(2), true), Changed(0, false, true, true), Changed(0, false, true, true),
                       Resume(true), Changed(2, false, true, true), Changed(0, false, true, true)];
            AskedBy(Bl(2, false, [], false, false), es) == 3 * Idles(es) == 3
  {
    var b := Bl(2, false, [], false, false);
    var e0, e1, e3 := Idle(Some(2), true), Changed(0, false, true, true), Resume(true);
    var e4 := Changed(2, false, true, true);
    var s1, s2, s3 := [e0], [e0, e1], [e0, e1, e1];
    var s4, s5, s6 := [e0, e1, e1, e3], [e0, e1, e1, e3, e4], [e0, e1, e1, e3, e4, e1];
    assert s1[..0] == [];
    assert s2[..1] == s1 && s3[..2] == s2 && s4[..3] == s3 && s5[..4] == s4 && s6[..5] == s5;
    assert After(b, []) == b;
    assert After(b, s1) == Bl(2, true, [0], false, false);
    assert After(b, s2) == Bl(2, true, [], false, false);
    assert After(b, s3) == Bl(2, true, [], true, false);
    assert After(b, s4) == Bl(2, false, [2], false, true);
    assert After(b, s5) == Bl(2, false, [], false, true);
    assert AskedBy(b, s1) == 1 && AskedBy(b, s2) == 1 && AskedBy(b, s3) == 1;
    assert AskedBy(b, s4) == 2 && AskedBy(b, s5) == 2;
    assert Idles(s1) == 1 && Idles(s2) == 1 && Idles(s3) == 1 && Idles(s4) == 1 && Idles(s5) == 1;
  }

  // ---- the daemon together with UPower ----

  /** A change UPower has announced but the daemon has not handled. */
  datatype Signal = Signal(value: int, isInternal: bool, mine: bool)

  /** UPower announces every change in order. `open` is whether the re-assert deadline,
      if armed, is still ahead. */
  datatype World = World(bl: Bl, hw: int, wire: seq<Signal>, open: bool)

  /** `ok` is whether the set_brightness call a handler makes, if it makes one, succeeds. */
  datatype Move =
    | GoIdle(ok: bool)
    | GoResume(ok: bool)
    | Deliver(ok: bool)
    | Foreign(value: int, isInternal: bool)
    | Expire

  /** A successful set changes the hardware and is announced. */
  function Apply(w: World, r: Reaction, ok: bool): World
  {
    var w' := w.(bl := r.bl, open := w.open || (r.bl.armed && !w.bl.armed));
    if r.asked.Some? && ok then
      w'.(hw := r.asked.value, wire := w'.wire + [Signal(r.asked.value, false, true)])
    else w'
  }

  function Moved(w: World, m: Move): World
  {
    match m
    case GoIdle(ok) => Apply(w, OnIdle(w.bl, Some(w.hw), ok), ok)
    case GoResume(ok) =>
      // arming again moves the deadline
      var w' := Apply(w, OnResume(w.bl, ok), ok);
      if w.bl.dimmed && w.bl.kdeDimmed then w'.(open := true) else w'
    case Deliver(ok) =>
      if w.wire == [] then w
      else
        var s := w.wire[0];
        Apply(w.(wire := w.wire[1..]), OnChanged(w.bl, s.value, s.isInternal, w.open, ok), ok)
    case Foreign(value, isInternal) => w.(hw := value, wire := w.wire + [Signal(value, isInternal, false)])
    case Expire => w.(open := false)
  }

  function InFlight(wire: seq<Signal>): seq<int>
  {
    if wire == [] then []
    else InFlight(wire[..|wire| - 1]) + if wire[|wire| - 1].mine then [wire[|wire| - 1].value] else []
  }

  lemma {:induction false} InFlightFirst(wire: seq<Signal>)
    requires wire != []
    ensures InFlight(wire) == (if wire[0].mine then [wire[0].value] else []) + InFlight(wire[1..])
    decreases |wire|
  {
    if |wire| > 1 {
      InFlightFirst(wire[..|wire| - 1]);
      assert wire[1..][..|wire| - 2] == wire[..|wire| - 1][1..];
    } else {
      assert wire[..0] == [] && wire[1..] == [];
    }
  }

  /** The queue is matched to the echoes: it is exactly the daemon's own signals in flight. */
  ghost predicate Matched(w: World) { w.bl.own == InFlight(w.wire) }

  /** A foreign signal taken for an echo is the one thing that breaks the matching. */
  predicate Confusing(w: World, m: Move)
  {
    m.Deliver? && w.wire != [] && !w.wire[0].mine && w.bl.own != [] && w.bl.own[0] == w.wire[0].value
  }

  lemma EchoDelivery(w: World, ok: bool)
    requires Matched(w) && w.wire != [] && w.bl.own != [] && w.bl.own[0] == w.wire[0].value
    ensures Matched(Moved(w, Deliver(ok))) <==> w.wire[0].mine
  {
    var rest := w.wire[1..];
    InFlightFirst(w.wire);
    if w.wire[0].mine {
      assert w.bl.own == [w.wire[0].value] + InFlight(rest);
    } else {
      assert |w.bl.own[1..]| < |InFlight(rest)|;
    }
  }

  lemma NoticeDelivery(w: World, ok: bool)
    requires Matched(w) && w.wire != [] && (w.bl.own == [] || w.bl.own[0] != w.wire[0].value)
    ensures Matched(Moved(w, Deliver(ok)))
  {
    var w', rest := Moved(w, Deliver(ok)), w.wire[1..];
    InFlightFirst(w.wire);
    assert !w.wire[0].mine && w.bl.own == InFlight(rest);
    if w'.wire != rest { InFlightLast(rest, w'.wire[|rest|]); }
  }

  lemma InFlightLast(wire: seq<Signal>, s: Signal)
    ensures InFlight(wire + [s]) == InFlight(wire) + if s.mine then [s.value] else []
  {
    assert (wire + [s])[..|wire|] == wire;
  }

  lemma DeliveryKeepsMatchingIff(w: World, ok: bool)
    requires Matched(w) && w.wire != []
    ensures Matched(Moved(w, Deliver(ok))) <==> !Confusing(w, Deliver(ok))
  {
    if w.bl.own != [] && w.bl.own[0] == w.wire[0].value {
      EchoDelivery(w, ok);
    } else {
      NoticeDelivery(w, ok);
    }
  }

  /** One move keeps the queue matched exactly when it is not confusing. */
  lemma MatchingKeptIff(w: World, m: Move)
    requires Matched(w)
    ensures Matched(Moved(w, m)) <==> !Confusing(w, m)
  {
    var w' := Moved(w, m);
    match m
    case Deliver(ok) =>
      if w.wire != [] { DeliveryKeepsMatchingIff(w, ok); }
    case Foreign(value, isInternal) =>
      assert w'.wire[..|w'.wire| - 1] == w.wire;
    case GoIdle(ok) =>
      if w.hw > 0 && ok { assert w'.wire[..|w'.wire| - 1] == w.wire; }
    case GoResume(ok) =>
      if w.bl.dimmed && ok { assert w'.wire[..|w'.wire| - 1] == w.wire; }
    case Expire =>
  }

  function Play(w: World, ms: seq<Move>): World
    decreases |ms|
  {
    if ms == [] then w else Moved(Play(w, ms[..|ms| - 1]), ms[|ms| - 1])
  }

  /** Along every run without a confusing delivery, calls that fail included, the queue is
      the in-flight echoes. */
  lemma {:induction false} EchoesStayMatched(w: World, ms: seq<Move>)
    requires Matched(w)
    requires forall k | 0 <= k < |ms| :: !Confusing(Play(w, ms[..k]), ms[k])
    ensures Matched(Play(w, ms))
    decreases |ms|
  {
    if ms != [] {
      var head := ms[..|ms| - 1];
      forall k | 0 <= k < |head|
        ensures !Confusing(Play(w, head[..k]), head[k])
      {
        assert head[..k] == ms[..k];
      }
      EchoesStayMatched(w, head);
      assert ms[..|ms| - 1] == head;
      MatchingKeptIff(Play(w, head), ms[|ms| - 1]);
    }
  }

  // ---- the race with KDE ----

  /** Handling the wire in order would drain the queue: zeros may be matched with
      anybody's zero, other values only with their own echo. */
  predicate Drains(own: seq<int>, wire: seq<Signal>)
    decreases |wire|
  {
    if wire == [] then own == []
    else if own != [] && own[0] == wire[0].value then Drains(own[1..], wire[1..])
    else wire[0].value == 0 && Drains(own, wire[1..])
  }

  lemma {:induction false} DrainsWithOneMore(own: seq<int>, wire: seq<Signal>, s: Signal)
    requires Drains(own, wire)
    ensures s.value == 0 ==> Drains(own, wire + [s])
    ensures Drains(own + [s.value], wire + [s])
    decreases |wire|
  {
    if wire == [] {
      assert (wire + [s])[1..] == [];
      assert (own + [s.value])[1..] == [];
      assert own == [];
    } else {
      assert (wire + [s])[1..] == wire[1..] + [s] && (wire + [s])[0] == wire[0];
      if own != [] && own[0] == wire[0].value {
        assert (own + [s.value])[1..] == own[1..] + [s.value];
        DrainsWithOneMore(own[1..], wire[1..], s);
      } else {
        DrainsWithOneMore(own, wire[1..], s);
        if own == [] && s.value == 0 {
          DrainsEmpty(wire[1..]);
          AllZeros(wire[1..], s);
        }
      }
    }
  }

  lemma {:induction false} DrainsEmpty(wire: seq<Signal>)
    ensures Drains([], wire) <==> forall s | s in wire :: s.value == 0
    decreases |wire|
  {
    if wire != [] {
      DrainsEmpty(wire[1..]);
      assert forall s | s in wire :: s == wire[0] || s in wire[1..];
    }
  }

  lemma AllZeros(wire: seq<Signal>, s: Signal)
    requires s.value == 0 && forall t | t in wire :: t.value == 0
    ensures Drains([], wire + [s])
  {
    DrainsEmpty(wire + [s]);
  }

  lemma {:induction false} DrainsLength(own: seq<int>, wire: seq<Signal>)
    requires Drains(own, wire)
    ensures |own| <= |wire|
    decreases |wire|
  {
    if wire != [] {
      if own != [] && own[0] == wire[0].value { DrainsLength(own[1..], wire[1..]); }
      else { DrainsLength(own, wire[1..]); }
    }
  }

  predicate Racing(w: World) { w.bl.armed && w.open }

  /** Only KDE writes besides the daemon, and it writes zeros. When it writes, when the
      deadline passes and which of the daemon's calls fail is left open. */
  predicate KdeMove(m: Move) { m.Foreign? ==> m.value == 0 && !m.isInternal }

  /** The next signal is one the daemon answers by putting the level back. */
  predicate Reasserts(w: World)
  {
    && w.wire != [] && w.wire[0].value == 0 && !w.wire[0].isInternal
    && (w.bl.own == [] || w.bl.own[0] != 0) && !w.bl.dimmed && Racing(w)
  }

  /** The guards of the race. KDE writes while the daemon has dimmed or expects it to; the
      deadline passes while dimmed or with the keyboard lit; no call to dim fails; a call
      to restore fails only with a KDE zero in flight that will be answered; and a call
      to re-assert fails only with the keyboard lit. */
  predicate Harmless(w: World, m: Move, lit: int)
  {
    match m
    case Foreign(value, isInternal) => w.bl.dimmed || Racing(w)
    case Expire => w.bl.dimmed || w.hw == lit
    case GoIdle(ok) => ok || w.hw == 0
    case GoResume(ok) => ok || !w.bl.dimmed || ((w.bl.kdeDimmed || Racing(w)) && |w.bl.own| < |w.wire|)
    case Deliver(ok) => ok || !Reasserts(w) || w.hw == lit
  }

  /** The invariant of the race, for a keyboard that was at `lit` before. */
  ghost predicate Contested(w: World, lit: int)
  {
    && lit > 0 && (w.hw == 0 || w.hw == lit)
    && (forall s | s in w.wire :: !s.isInternal)
    && Drains(w.bl.own, w.wire)
    && (w.bl.dimmed || Racing(w) ==> w.bl.level == lit)
    && (w.bl.dimmed ==> w.hw == 0)
    && (!w.bl.dimmed && w.hw == 0 ==> Racing(w) && |w.bl.own| < |w.wire|)
  }

  lemma DeliveryKeepsContestedIff(w: World, ok: bool, lit: int)
    requires Contested(w, lit) && w.wire != []
    ensures Contested(Moved(w, Deliver(ok)), lit) <==> Harmless(w, Deliver(ok), lit)
  {
    var s, rest := w.wire[0], w.wire[1..];
    var w' := Moved(w, Deliver(ok));
    assert s in w.wire;
    assert forall t | t in rest :: t in w.wire;
    if w.bl.own != [] && w.bl.own[0] == s.value {
    } else if w.bl.dimmed {
    } else if Racing(w) {
      DrainsWithOneMore(w.bl.own, rest, Signal(lit, false, true));
    }
  }

  /** A move keeps the invariant exactly when it is harmless. */
  lemma MoveKeepsContestedIff(w: World, m: Move, lit: int)
    requires Contested(w, lit) && KdeMove(m)
    ensures Contested(Moved(w, m), lit) <==> Harmless(w, m, lit)
  {
    match m
    case Deliver(ok) =>
      if w.wire != [] { DeliveryKeepsContestedIff(w, ok, lit); }
    case Foreign(value, isInternal) =>
      DrainsWithOneMore(w.bl.own, w.wire, Signal(0, false, false));
      DrainsLength(w.bl.own, w.wire);
    case GoIdle(ok) =>
      if w.hw > 0 { DrainsWithOneMore(w.bl.own, w.wire, Signal(0, false, true)); }
    case GoResume(ok) =>
      if w.bl.dimmed { DrainsWithOneMore(w.bl.own, w.wire, Signal(lit, false, true)); }
    case Expire =>
  }

  /** Everything in flight handled and nothing else happening. A re-assertion puts a
      signal on the wire but disarms. */
  function Drained(w: World): World
    decreases |w.wire| + if w.bl.armed then 1 else 0
  {
    if w.wire == [] then w else Drained(Moved(w, Deliver(true)))
  }

  lemma {:induction false} DrainedStaysContested(w: World, lit: int)
    requires Contested(w, lit)
    ensures Contested(Drained(w), lit) && Drained(w).wire == []
    decreases |w.wire| + if w.bl.armed then 1 else 0
  {
    if w.wire != [] {
      DeliveryKeepsContestedIff(w, true, lit);
      DrainedStaysContested(Moved(w, Deliver(true)), lit);
    }
  }

  /** A keyboard gone dark while the daemon neither dims nor expects it stays dark. */
  lemma {:induction false} DarkStaysDark(w: World)
    requires !w.bl.dimmed && w.hw == 0 && !Racing(w)
    ensures !Drained(w).bl.dimmed && Drained(w).hw == 0
    decreases |w.wire| + if w.bl.armed then 1 else 0
  {
    if w.wire != [] { DarkStaysDark(Moved(w, Deliver(true))); }
  }

  /** So does one whose daemon expects KDE but has only its own echoes in flight. */
  lemma {:induction false} DarkWithOwnEchoes(w: World)
    requires !w.bl.dimmed && w.hw == 0 && Drains(w.bl.own, w.wire) && |w.bl.own| == |w.wire|
    ensures !Drained(w).bl.dimmed && Drained(w).hw == 0
    decreases |w.wire|
  {
    if w.wire != [] {
      if w.bl.own[0] != w.wire[0].value { DrainsLength(w.bl.own, w.wire[1..]); }
      DarkWithOwnEchoes(Moved(w, Deliver(true)));
    }
  }

  /** And a keyboard the daemon wrongly takes for dimmed stays lit. */
  lemma {:induction false} LitStaysTakenForDimmed(w: World)
    requires w.bl.dimmed && Drains(w.bl.own, w.wire) && forall s | s in w.wire :: !s.isInternal
    ensures Drained(w).bl.dimmed && Drained(w).hw == w.hw
    decreases |w.wire| + if w.bl.armed then 1 else 0
  {
    if w.wire != [] {
      assert w.wire[0] in w.wire;
      assert forall s | s in w.wire[1..] :: s in w.wire;
      LitStaysTakenForDimmed(Moved(w, Deliver(true)));
    }
  }

  /** Once all signals are handled the queue is drained and the keyboard is dark exactly
      when dimmed, and otherwise at the level it had. */
  predicate EndsLit(w: World, lit: int)
  {
    var d := Drained(w);
    d.bl.own == [] && d.hw == if d.bl.dimmed then 0 else lit
  }

  lemma ContestedEndsLit(w: World, lit: int)
    requires Contested(w, lit)
    ensures EndsLit(w, lit)
  {
    DrainedStaysContested(w, lit);
  }

  /** One move of the race ends lit exactly when it is harmless. */
  lemma MoveEndsLitIff(w: World, m: Move, lit: int)
    requires Contested(w, lit) && KdeMove(m)
    ensures EndsLit(Moved(w, m), lit) <==> Harmless(w, m, lit)
  {
    MoveKeepsContestedIff(w, m, lit);
    if Harmless(w, m, lit) {
      ContestedEndsLit(Moved(w, m), lit);
    } else if m.GoIdle? {
      LitStaysTakenForDimmed(Moved(w, m));
    } else if m.GoResume? && (w.bl.kdeDimmed || Racing(w)) {
      DrainsLength(w.bl.own, w.wire);
      DarkWithOwnEchoes(Moved(w, m));
    } else {
      DarkStaysDark(Moved(w, m));
    }
  }

  function Start(lit: int): World { World(Bl(lit, false, [], false, false), lit, [], false) }

  /** Each move of the run is harmless where it happens. */
  predicate AllHarmless(ms: seq<Move>, lit: int)
    decreases |ms|
  {
    ms == [] || (AllHarmless(ms[..|ms| - 1], lit) && Harmless(Play(Start(lit), ms[..|ms| - 1]), ms[|ms| - 1], lit))
  }

  /** After each move of the run, what is in flight would end lit. */
  predicate AlwaysEndsLit(ms: seq<Move>, lit: int)
    decreases |ms|
  {
    (ms == [] || AlwaysEndsLit(ms[..|ms| - 1], lit)) && EndsLit(Play(Start(lit), ms), lit)
  }

  lemma {:induction false} HarmlessRunStaysContested(ms: seq<Move>, lit: int)
    requires lit > 0 && (forall m | m in ms :: KdeMove(m)) && AllHarmless(ms, lit)
    ensures Contested(Play(Start(lit), ms), lit)
    decreases |ms|
  {
    if ms != [] {
      var head, m := ms[..|ms| - 1], ms[|ms| - 1];
      assert m in ms;
      HarmlessRunStaysContested(head, lit);
      MoveKeepsContestedIff(Play(Start(lit), head), m, lit);
    }
  }

  /** Any number of idle and resume cycles, of KDE zeros, of deadlines and of failing calls,
      at any time and in every order of delivery: the keyboard always ends lit if and only
      if every move was harmless. */
  lemma {:induction false} KdeRaceEndsLitIff(ms: seq<Move>, lit: int)
    requires lit > 0 && forall m | m in ms :: KdeMove(m)
    ensures AlwaysEndsLit(ms, lit) <==> AllHarmless(ms, lit)
    decreases |ms|
  {
    if ms == [] {
      ContestedEndsLit(Start(lit), lit);
    } else {
      var head, m := ms[..|ms| - 1], ms[|ms| - 1];
      assert m in ms;
      assert forall m | m in head :: m in ms;
      KdeRaceEndsLitIff(head, lit);
      if AllHarmless(head, lit) {
        HarmlessRunStaysContested(head, lit);
        MoveEndsLitIff(Play(Start(lit), head), m, lit);
      }
    }
  }

  /** Stopping the daemon anywhere in such a run leaves the keyboard lit, signals in flight
      or not. */
  lemma StoppingLeavesLit(ms: seq<Move>, lit: int)
    requires lit > 0 && (forall m | m in ms :: KdeMove(m)) && AllHarmless(ms, lit)
    ensures var w := Play(Start(lit), ms); w.bl.dimmed ==> Apply(w, Set(w.bl, w.bl.level, true), true).hw == lit
  {
    HarmlessRunStaysContested(ms, lit);
  }

  // ---- when the daemon expects KDE ----

  /** What happens while dimmed: KDE dims too, signals are handled. */
  predicate WhileDimmed(m: Move) { m == Deliver(true) || m == Foreign(0, false) }

  function KdeZeros(ms: seq<Move>): nat
  {
    if ms == [] then 0 else KdeZeros(ms[..|ms| - 1]) + if ms[|ms| - 1].Foreign? then 1 else 0
  }

  /** The dimmed world after such moves. KDE has been noticed exactly when fewer signals
      are in flight than it wrote: of its zeros and the daemon's own echo, which cannot be
      told apart, at least two have been handled. */
  lemma {:induction false} NoticedIff(ms: seq<Move>, lit: int)
    requires lit > 0 && forall m | m in ms :: WhileDimmed(m)
    ensures var w := Play(Moved(Start(lit), GoIdle(true)), ms);
            && Contested(w, lit) && w.bl.dimmed && !w.bl.armed
            && |w.wire| <= KdeZeros(ms) + 1
            && w.bl.own == (if |w.wire| == KdeZeros(ms) + 1 then [0] else [])
            && (forall s | s in w.wire :: s.value == 0)
            && (w.bl.kdeDimmed <==> |w.wire| < KdeZeros(ms))
    decreases |ms|
  {
    var idle := Moved(Start(lit), GoIdle(true));
    if ms == [] {
      MoveKeepsContestedIff(Start(lit), GoIdle(true), lit);
    } else {
      var head, m := ms[..|ms| - 1], ms[|ms| - 1];
      assert m in ms;
      NoticedIff(head, lit);
      var w := Play(idle, head);
      MoveKeepsContestedIff(w, m, lit);
      if m.Deliver? && w.wire != [] { assert w.wire[0] in w.wire; }
    }
  }

  /** KDE dims, the user comes back, KDE restores the 0 it saw: the keyboard ends lit if
      and only if KDE had been noticed before the resume. */
  lemma KdeRestoreEndsLitIff(ms: seq<Move>, lit: int)
    requires lit > 0 && forall m | m in ms :: WhileDimmed(m)
    ensures var w := Play(Moved(Start(lit), GoIdle(true)), ms);
            && (Racing(Moved(w, GoResume(true))) <==> |w.wire| < KdeZeros(ms))
            && (EndsLit(Moved(Moved(w, GoResume(true)), Foreign(0, false)), lit) <==> |w.wire| < KdeZeros(ms))
  {
    var w := Play(Moved(Start(lit), GoIdle(true)), ms);
    NoticedIff(ms, lit);
    MoveKeepsContestedIff(w, GoResume(true), lit);
    MoveEndsLitIff(Moved(w, GoResume(true)), Foreign(0, false), lit);
  }

  /** So a resume that comes before KDE's notice leaves the keyboard dark and the level
      lost, with everything handled and no deadline passed. */
  lemma ResumeBeforeNoticeLeavesDark()
    ensures var w1 := Moved(Moved(Moved(Start(2), GoIdle(true)), Foreign(0, false)), GoResume(true));
            var w2 := Moved(Moved(Moved(w1, Foreign(0, false)), Deliver(true)), Deliver(true));
            Moved(Moved(w2, Deliver(true)), Deliver(true)) == Start(2).(bl := Start(0).bl, hw := 0)
  {
    var w1 := Moved(Moved(Moved(Start(2), GoIdle(true)), Foreign(0, false)), GoResume(true));
    assert w1 == World(Bl(2, false, [0, 2], false, false), 2,
                       [Signal(0, false, true), Signal(0, false, false), Signal(2, false, true)], false);
    var w2 := Moved(Moved(Moved(w1, Foreign(0, false)), Deliver(true)), Deliver(true));
    assert w2 == World(Bl(0, false, [2], false, false), 0, [Signal(2, false, true), Signal(0, false, false)], false);
  }

  /** A notice is prompt if it is an echo, or arrives while the daemon is dimmed or
      expecting it. */
  predicate Prompt(w: World, m: Move)
  {
    m.Deliver? && w.wire != [] ==>
      w.bl.dimmed || Racing(w) || (w.bl.own != [] && w.bl.own[0] == w.wire[0].value)
  }

  /** The remembered level too comes through exactly as long as every notice is prompt. */
  lemma LevelKeptIffPrompt(w: World, m: Move, lit: int)
    requires Contested(w, lit) && KdeMove(m) && w.bl.level == lit
    ensures Moved(w, m).bl.level == lit <==> Prompt(w, m)
  {
    if m.Deliver? && w.wire != [] {
      assert w.wire[0] in w.wire;
    }
  }

  /** Nobody but the daemon has written. */
  ghost predicate Alone(w: World, lit: int)
  {
    && lit > 0 && w.bl.level == lit && w.hw == (if w.bl.dimmed then 0 else lit)
    && Matched(w) && |w.bl.own| == |w.wire| && !w.bl.kdeDimmed && !w.bl.armed
    && (forall s | s in w.wire :: s.mine && !s.isInternal)
  }

  predicate OwnMove(m: Move) { m == GoIdle(true) || m == GoResume(true) || m == Deliver(true) }

  lemma MoveKeepsAlone(w: World, m: Move, lit: int)
    requires Alone(w, lit) && OwnMove(m)
    ensures Alone(Moved(w, m), lit)
  {
    if m.Deliver? {
      if w.wire != [] { DeliveryKeepsAlone(w, lit); }
    } else {
      MatchingKeptIff(w, m);
    }
  }

  lemma DeliveryKeepsAlone(w: World, lit: int)
    requires Alone(w, lit) && w.wire != []
    ensures Alone(Moved(w, Deliver(true)), lit)
  {
    InFlightFirst(w.wire);
    assert w.wire[0] in w.wire;
    assert w.bl.own[0] == w.wire[0].value && w.bl.own[1..] == InFlight(w.wire[1..]);
    assert forall s | s in w.wire[1..] :: s in w.wire;
  }

  /** Without KDE the cycles alone keep both, even when resume comes before the echo of 0. */
  lemma {:induction false} CyclesRestore(ms: seq<Move>, lit: int)
    requires lit > 0 && forall m | m in ms :: OwnMove(m)
    ensures Alone(Play(Start(lit), ms), lit)
    decreases |ms|
  {
    if ms != [] {
      var head, m := ms[..|ms| - 1], ms[|ms| - 1];
      CyclesRestore(head, lit);
      assert m in ms;
      MoveKeepsAlone(Play(Start(lit), head), m, lit);
    }
  }

  /** A KDE zero handled only after resume is taken for the user's choice: the keyboard
      is lit but the daemon remembers 0. */
  lemma LateNoticeLosesLevel()
    ensures var w1 := Moved(Moved(Moved(Start(2), GoIdle(true)), Foreign(0, false)), GoResume(true));
            Moved(Moved(Moved(w1, Deliver(true)), Deliver(true)), Deliver(true)) == Start(2).(bl := Start(0).bl)
  {
  }

  /** And a KDE zero written in time but handled after the deadline leaves the keyboard
      dark: the condition on Expire cannot be dropped. */
  lemma DeadlineWithNoticeInFlightLeavesDark()
    ensures var w0 := Moved(Moved(Start(2), GoIdle(true)), Foreign(0, false));
            var w1 := Moved(Moved(Moved(w0, Deliver(true)), Deliver(true)), GoResume(true));
            var w2 := Moved(Moved(w1, Foreign(0, false)), Expire);
            && Racing(w1)
            && Moved(Moved(w2, Deliver(true)), Deliver(true)) == World(Bl(0, false, [], false, true), 0, [], false)
  {
  }
}
