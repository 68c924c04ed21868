/** The firmware's two CPU power limits and the coupling that pushes one when a store
    of the other would cross it (`cpu_longterm_powerlimit_store`,
    `cpu_shortterm_powerlimit_store`). PL1 is the long-term limit. */
module PowerLimits {
  import opened MachineInts
  import opened CapData

  datatype Limits = Limits(pl1: i32, pl2: i32)
  {
    predicate Ordered() { pl1 <= pl2 }
  }

  /** Which of the three firmware calls of one store succeed. */
  datatype Wmi = Wmi(get: bool, push: bool, land: bool)

  const ALL_SUCCEED := Wmi(true, true, true)

  datatype Store = Long(request: i32) | Short(request: i32)
  {
    function Feature(): u32 { if Long? then CPU_LONG_TERM else CPU_SHORT_TERM }
  }

  /** The firmware after a coupled store has pushed the other limit, if it does. */
  function Pushed(l: Limits, s: Store, coupled: bool, v: i32, w: Wmi): Limits
  {
    if !(coupled && w.get && w.push) then l
    else if s.Long? then if v > l.pl2 then l.(pl2 := v) else l
    else if l.pl1 > v then l.(pl1 := v) else l
  }

  function Landed(l: Limits, s: Store, v: i32): Limits
  {
    if s.Long? then l.(pl1 := v) else l.(pl2 := v)
  }

  /** The firmware states after each write of one store of the clamped value v. A push
      that would change nothing is not attempted. */
  function Visited(l: Limits, s: Store, coupled: bool, v: i32, w: Wmi): seq<Limits>
  {
    var p := Pushed(l, s, coupled, v, w);
    (if p != l then [p] else []) + (if w.land then [Landed(p, s, v)] else [])
  }

  function After(l: Limits, s: Store, coupled: bool, v: i32, w: Wmi): Limits
  {
    var p := Pushed(l, s, coupled, v, w);
    if w.land then Landed(p, s, v) else p
  }

  class LegionPrivate {
    var tables: Tables
    var coupling: bool
    var firmware: Limits
    ghost var visited: seq<Limits>    // the firmware after each write so far

    method GetLimit(long: bool, ok: bool) returns (r: Option<i32>)
      ensures r == if !ok then None else Some(if long then firmware.pl1 else firmware.pl2)
    {
      r := if !ok then None else Some(if long then firmware.pl1 else firmware.pl2);
    }

    /** `wmi_common_method_other_store` */
    method SetLimit(long: bool, value: i32, ok: bool)
      modifies this`firmware, this`visited
      ensures firmware == if !ok then old(firmware)
                          else if long then old(firmware).(pl1 := value) else old(firmware).(pl2 := value)
      ensures visited == old(visited) + if ok then [firmware] else []
    {
      if ok {
        firmware := if long then firmware.(pl1 := value) else firmware.(pl2 := value);
        visited := visited + [firmware];
      }
    }

    method LongtermStore(parsed: Option<i32>, w: Wmi) returns (ok: bool)
      modifies this`firmware, this`visited
      ensures var c := if parsed.None? then None else Limit(tables, CPU_LONG_TERM, parsed.value);
              if c.None? then !ok && firmware == old(firmware) && visited == old(visited)
              else var s := Long(parsed.value);
                   && ok == w.land
                   && firmware == After(old(firmware), s, coupling, c.value, w)
                   && visited == old(visited) + Visited(old(firmware), s, coupling, c.value, w)
    {
      var c := ClampedValue(tables, CPU_LONG_TERM, parsed);
      if c.None? {
        return false;
      }
      var value := c.value;
      if coupling {
        var pl2 := GetLimit(false, w.get);
        if pl2.Some? && value > pl2.value {
          SetLimit(false, value, w.push);
        }
      }
      SetLimit(true, value, w.land);
      ok := w.land;
    }

    method ShorttermStore(parsed: Option<i32>, w: Wmi) returns (ok: bool)
      modifies this`firmware, this`visited
      ensures var c := if parsed.None? then None else Limit(tables, CPU_SHORT_TERM, parsed.value);
              if c.None? then !ok && firmware == old(firmware) && visited == old(visited)
              else var s := Short(parsed.value);
                   && ok == w.land
                   && firmware == After(old(firmware), s, coupling, c.value, w)
                   && visited == old(visited) + Visited(old(firmware), s, coupling, c.value, w)
    {
      var c := ClampedValue(tables, CPU_SHORT_TERM, parsed);
      if c.None? {
        return false;
      }
      var value := c.value;
      if coupling {
        var pl1 := GetLimit(true, w.get);
        if pl1.Some? && pl1.value > value {
          SetLimit(true, value, w.push);
        }
      }
      SetLimit(false, value, w.land);
      ok := w.land;
    }
  }

  // ---- one store ----

  predicate PushNeeded(l: Limits, s: Store, v: i32)
  {
    if s.Long? then v > l.pl2 else l.pl1 > v
  }

  /** With coupling on and every call succeeding, a store leaves the limits in order
      whatever they were before. The write it makes on the way is in order too unless
      the limits already were not. */
  lemma CoupledStoreOrders(l: Limits, s: Store, v: i32)
    ensures After(l, s, true, v, ALL_SUCCEED).Ordered()
    ensures (forall m | m in Visited(l, s, true, v, ALL_SUCCEED) :: m.Ordered()) <==>
              (PushNeeded(l, s, v) ==> if s.Long? then l.pl1 <= v else v <= l.pl2)
    ensures l.Ordered() ==> forall m | m in Visited(l, s, true, v, ALL_SUCCEED) :: m.Ordered()
  {
    var p := Pushed(l, s, true, v, ALL_SUCCEED);
    var vs := Visited(l, s, true, v, ALL_SUCCEED);
    assert vs[|vs| - 1] == Landed(p, s, v);
    if p != l {
      assert vs[0] == p;
      assert p in vs;
    }
  }

  /** When calls may fail, a store from ordered limits leaves them out of order exactly
      when it lands but the push it needed did not. */
  lemma FailedPushDisordersIff(l: Limits, s: Store, v: i32, w: Wmi)
    requires l.Ordered()
    ensures After(l, s, true, v, w).Ordered() <==> !(w.land && PushNeeded(l, s, v) && !(w.get && w.push))
  {
  }

  // ---- whole runs of serialised stores ----

  /** The firmware states visited by a run of stores, all of whose calls succeed;
      refused requests change nothing. */
  function Run(l: Limits, coupled: bool, t: Tables, stores: seq<Store>): seq<Limits>
    decreases |stores|
  {
    if stores == [] then []
    else
      match Limit(t, stores[0].Feature(), stores[0].request)
      case None => Run(l, coupled, t, stores[1..])
      case Some(v) =>
        Visited(l, stores[0], coupled, v, ALL_SUCCEED)
        + Run(After(l, stores[0], coupled, v, ALL_SUCCEED), coupled, t, stores[1..])
  }

  /** Coupling keeps PL1 <= PL2 after every single firmware write of every run, with
      Lenovo's ranges or without them. */
  lemma {:induction false} CoupledRunStaysOrdered(l: Limits, t: Tables, stores: seq<Store>)
    requires l.Ordered()
    ensures forall m | m in Run(l, true, t, stores) :: m.Ordered()
    decreases |stores|
  {
    if stores != [] {
      match Limit(t, stores[0].Feature(), stores[0].request)
      case None => CoupledRunStaysOrdered(l, t, stores[1..]);
      case Some(v) =>
        CoupledStoreOrders(l, stores[0], v);
        CoupledRunStaysOrdered(After(l, stores[0], true, v, ALL_SUCCEED), t, stores[1..]);
    }
  }

  datatype Range = Range(min: int, max: int)
  {
    predicate Has(x: int) { min <= x <= max }
  }

  predicate Within(l: Limits, r1: Range, r2: Range) { r1.Has(l.pl1) && r2.Has(l.pl2) }

  /** Every request for a feature is answered from its range. */
  ghost predicate Answers(t: Tables, feature: u32, r: Range)
  {
    forall v: i32 :: Limit(t, feature, v).Some? && r.Has(Limit(t, feature, v).value)
  }

  /** An advertised range answers every request from itself. */
  lemma AdvertisedRangeAnswers(t: Tables, feature: u32, c: Capability)
    requires !(t.ignoreCapdata && SkipsCapdata(feature))
    requires FirstCapability(t.capdata, feature, t.powermode) == Some(c) && Sane(c)
    ensures Answers(t, feature, Range(c.minValue, c.maxValue))
  {
    forall v: i32
      ensures Limit(t, feature, v).Some? && Range(c.minValue, c.maxValue).Has(Limit(t, feature, v).value)
    {
      InRangeIsKept(c.minValue);
      InRangeIsKept(c.maxValue);
    }
  }

  /** Pushing respects the other limit's range when both ends of the ranges are in order. */
  lemma {:induction false} CoupledRunStaysWithin(l: Limits, t: Tables, stores: seq<Store>, r1: Range, r2: Range)
    requires Within(l, r1, r2) && r1.min <= r2.min && r1.max <= r2.max
    requires Answers(t, CPU_LONG_TERM, r1) && Answers(t, CPU_SHORT_TERM, r2)
    ensures forall m | m in Run(l, true, t, stores) :: Within(m, r1, r2)
    decreases |stores|
  {
    if stores != [] {
      var v := Limit(t, stores[0].Feature(), stores[0].request).value;
      var p := Pushed(l, stores[0], true, v, ALL_SUCCEED);
      assert Within(p, r1, r2) && Within(Landed(p, stores[0], v), r1, r2);
      CoupledRunStaysWithin(After(l, stores[0], true, v, ALL_SUCCEED), t, stores[1..], r1, r2);
    }
  }

  /** That order of the ranges is exactly what is needed: otherwise some store of an
      in-range value, from in-range limits, pushes a limit out of its range. */
  lemma PushStaysWithinIff(r1: Range, r2: Range)
    requires -TWO_31 <= r1.min <= r1.max < TWO_31 && -TWO_31 <= r2.min <= r2.max < TWO_31
    ensures (forall l: Limits, s: Store, v: i32 |
                  Within(l, r1, r2) && (if s.Long? then r1.Has(v) else r2.Has(v)) ::
                Within(After(l, s, true, v, ALL_SUCCEED), r1, r2))
            <==> r1.min <= r2.min && r1.max <= r2.max
  {
    var low, high := Limits(r1.min, r2.min), Limits(r1.max, r2.max);
    var up, down := Long(r1.max), Short(r2.min);
    assert Within(low, r1, r2) && Within(high, r1, r2);
    if r1.max > r2.max {
      assert !Within(After(low, up, true, r1.max, ALL_SUCCEED), r1, r2);
    } else if r1.min > r2.min {
      assert !Within(After(high, down, true, r2.min, ALL_SUCCEED), r1, r2);
    }
  }

  /** `set_power` writes PL1 and then PL2. Where that ends does not depend on where the
      firmware was: coupling lowers PL1 to PL2, and both land as asked exactly when
      coupling is off or they were asked in order. */
  lemma SetPowerEndsAt(l: Limits, coupled: bool, c1: i32, c2: i32)
    ensures var end := After(After(l, Long(c1), coupled, c1, ALL_SUCCEED), Short(c2), coupled, c2, ALL_SUCCEED);
            && end == Limits(if coupled then Min(c1, c2) else c1, c2)
            && (end == Limits(c1, c2) <==> !coupled || c1 <= c2)
  {
  }

  // ---- two stores at once ----

  /** A store as the separate firmware calls it makes. The comparison uses the value
      read earlier, since no one lock spans the calls. */
  datatype Task = ToGet(s: Store, v: i32) | ToPush(s: Store, v: i32) | ToSet(s: Store, v: i32) | Done

  function TaskStep(l: Limits, t: Task): (Limits, Task)
  {
    match t
    case ToGet(s, v) =>
      (l, if PushNeeded(l, s, v) then ToPush(s, v) else ToSet(s, v))
    case ToPush(s, v) =>
      (if s.Long? then l.(pl2 := v) else l.(pl1 := v), ToSet(s, v))
    case ToSet(s, v) => (Landed(l, s, v), Done)
    case Done => (l, Done)
  }

  /** Left alone, a task is a coupled store. */
  lemma TaskAloneIsStore(l: Limits, s: Store, v: i32)
    ensures var (l1, t1) := TaskStep(l, ToGet(s, v));
            var (l2, t2) := TaskStep(l1, t1);
            var (l3, t3) := TaskStep(l2, t2);
            l3 == After(l, s, true, v, ALL_SUCCEED) && t3.Done?
  {
  }

  /** Two stores under way, and the firmware between their calls. */
  datatype Overlap = Overlap(l: Limits, first: Task, second: Task)
  {
    predicate Finished() { first.Done? && second.Done? }
  }

  function Begin(l: Limits, s1: Store, v1: i32, s2: Store, v2: i32): Overlap
  {
    Overlap(l, ToGet(s1, v1), ToGet(s2, v2))
  }

  /** Each entry of the schedule says whether the first store makes its next call. */
  function Overlapped(o: Overlap, sched: seq<bool>): Overlap
    decreases |sched|
  {
    if sched == [] then o else Overlapped(NextCall(o, sched[0]), sched[1..])
  }

  function NextCall(o: Overlap, first: bool): Overlap
  {
    if first then var (l, t) := TaskStep(o.l, o.first); Overlap(l, t, o.second)
    else var (l, t) := TaskStep(o.l, o.second); Overlap(l, o.first, t)
  }

  /** What two overlapping stores of the values v1 and v2 need: of different limits, that
      they are asked in order; of the same limit, that they ask the same or that one of
      them needs no push. */
  predicate Compatible(l: Limits, s1: Store, v1: i32, s2: Store, v2: i32)
  {
    match (s1, s2)
    case (Long(_), Short(_)) => v1 <= v2
    case (Short(_), Long(_)) => v2 <= v1
    case (Long(_), Long(_)) => v1 == v2 || Min(v1, v2) <= l.pl2
    case (Short(_), Short(_)) => v1 == v2 || Max(v1, v2) >= l.pl1
  }

  ghost predicate FinishesOrdered(o: Overlap)
  {
    forall sched | Overlapped(o, sched).Finished() :: Overlapped(o, sched).l.Ordered()
  }

  /** From limits in order, over every interleaving of the firmware calls of two coupled
      stores: whenever both have finished the limits are in order, if and only if the
      stores are compatible. Two stores of the same limit can break the order too. */
  lemma OverlapOrderedIff(l: Limits, s1: Store, v1: i32, s2: Store, v2: i32)
    requires l.Ordered()
    ensures FinishesOrdered(Begin(l, s1, v1, s2, v2)) <==> Compatible(l, s1, v1, s2, v2)
  {
    var o := Begin(l, s1, v1, s2, v2);
    if Compatible(l, s1, v1, s2, v2) {
      forall sched | Overlapped(o, sched).Finished()
        ensures Overlapped(o, sched).l.Ordered()
      {
        OverlapKeeps(l, s1, v1, s2, v2, o, sched);
      }
    } else {
      var sched := PushesThenSets(l, s1, v1, s2, v2);
    }
  }

  predicate Past(t: Task) { t.ToSet? || t.Done? }

  predicate Runs(t: Task, s: Store, v: i32) { t.Done? || (t.s == s && t.v == v) }

  /** What every interleaving of two compatible stores keeps. */
  predicate OverlapInv(l0: Limits, s1: Store, v1: i32, s2: Store, v2: i32, o: Overlap)
  {
    && Runs(o.first, s1, v1) && Runs(o.second, s2, v2)
    && if s1.Long? != s2.Long? then
         var (long, short) := if s1.Long? then (o.first, o.second) else (o.second, o.first);
         var (v, w) := if s1.Long? then (v1, v2) else (v2, v1);
         && (long.Done? ==> o.l.pl1 in {v, w}) && (short.Done? ==> o.l.pl2 in {v, w})
         && (o.Finished() ==> o.l.Ordered())
       else if s1.Long? then
         && o.l.Ordered() && l0.pl2 <= o.l.pl2 && o.l.pl1 in {l0.pl1, v1, v2}
         && (o.first.ToPush? ==> l0.pl2 < v1) && (o.second.ToPush? ==> l0.pl2 < v2)
         && (Past(o.first) ==> v1 <= o.l.pl2) && (Past(o.second) ==> v2 <= o.l.pl2)
       else
         && o.l.Ordered() && o.l.pl1 <= l0.pl1 && o.l.pl2 in {l0.pl2, v1, v2}
         && (o.first.ToPush? ==> v1 < l0.pl1) && (o.second.ToPush? ==> v2 < l0.pl1)
         && (Past(o.first) ==> o.l.pl1 <= v1) && (Past(o.second) ==> o.l.pl1 <= v2)
  }

  lemma {:induction false} OverlapKeeps(l0: Limits, s1: Store, v1: i32, s2: Store, v2: i32, o: Overlap,
                                        sched: seq<bool>)
    requires l0.Ordered() && Compatible(l0, s1, v1, s2, v2) && OverlapInv(l0, s1, v1, s2, v2, o)
    ensures Overlapped(o, sched).Finished() ==> Overlapped(o, sched).l.Ordered()
    decreases |sched|
  {
    if sched != [] {
      NextCallKeeps(l0, s1, v1, s2, v2, o, sched[0]);
      OverlapKeeps(l0, s1, v1, s2, v2, NextCall(o, sched[0]), sched[1..]);
    }
  }

  lemma NextCallKeeps(l0: Limits, s1: Store, v1: i32, s2: Store, v2: i32, o: Overlap, first: bool)
    requires l0.Ordered() && Compatible(l0, s1, v1, s2, v2) && OverlapInv(l0, s1, v1, s2, v2, o)
    ensures OverlapInv(l0, s1, v1, s2, v2, NextCall(o, first))
  {
  }

  /** Otherwise both read, both push where they must, and only then both set: of two
      stores of one limit the last push is of the value nearer to the other limit and
      the last set of the value farther away. */
  lemma PushesThenSets(l: Limits, s1: Store, v1: i32, s2: Store, v2: i32) returns (sched: seq<bool>)
    requires l.Ordered() && !Compatible(l, s1, v1, s2, v2)
    ensures Overlapped(Begin(l, s1, v1, s2, v2), sched).Finished()
    ensures !Overlapped(Begin(l, s1, v1, s2, v2), sched).l.Ordered()
  {
    var o := Begin(l, s1, v1, s2, v2);
    var push1, push2 := PushNeeded(l, s1, v1), PushNeeded(l, s2, v2);
    if s1.Long? != s2.Long? {
      sched := [true, false] + (if push1 then [true] else []) + (if push2 then [false] else []) + [true, false];
    } else {
      // the store whose set comes last
      var last := if s1.Long? then v1 > v2 else v1 < v2;
      sched := [true, false, last, !last, !last, last];
    }
    SixCalls(o, sched);
  }

  /** A schedule unfolded. */
  lemma SixCalls(o: Overlap, sched: seq<bool>)
    requires 4 <= |sched| <= 6
    ensures var o4 := NextCall(NextCall(NextCall(NextCall(o, sched[0]), sched[1]), sched[2]), sched[3]);
            var o5 := if |sched| > 4 then NextCall(o4, sched[4]) else o4;
            Overlapped(o, sched) == if |sched| > 5 then NextCall(o5, sched[5]) else o5
  {
    var o1 := NextCall(o, sched[0]);
    var o2 := NextCall(o1, sched[1]);
    var o3 := NextCall(o2, sched[2]);
    var o4 := NextCall(o3, sched[3]);
    assert sched[1..][1..] == sched[2..] && sched[2..][1..] == sched[3..] && sched[3..][1..] == sched[4..];
    assert Overlapped(o, sched) == Overlapped(o1, sched[1..]) == Overlapped(o2, sched[2..]);
    assert Overlapped(o2, sched[2..]) == Overlapped(o3, sched[3..]) == Overlapped(o4, sched[4..]);
    if |sched| > 4 {
      var o5 := NextCall(o4, sched[4]);
      assert sched[4..][1..] == sched[5..];
      assert Overlapped(o4, sched[4..]) == Overlapped(o5, sched[5..]);
      if |sched| > 5 {
        assert sched[5..][1..] == [];
        assert Overlapped(o5, sched[5..]) == NextCall(o5, sched[5]);
      }
    }
  }

  /** Two stores of PL1 alone: from (40, 45), 60 and 70 at once end at (70, 60). */
  lemma SameLimitCanDisorder()
    ensures var sched := PushesThenSetsOf(60, 70);
            var o := Overlapped(Begin(Limits(40, 45), Long(60), 60, Long(70), 70), sched);
            o.Finished() && o.l == Limits(70, 60)
  {
    SixCalls(Begin(Limits(40, 45), Long(60), 60, Long(70), 70), PushesThenSetsOf(60, 70));
  }

  function PushesThenSetsOf(v1: i32, v2: i32): seq<bool> { [true, false, v1 > v2, v1 <= v2, v1 <= v2, v1 > v2] }

  /** Raising PL1 while PL2 is being lowered can end out of order: both read before
      either writes. */
  lemma ConcurrentStoresCanDisorder()
    ensures var start := Limits(40, 60);
            var (a1, long1) := TaskStep(start, ToGet(Long(55), 55));
            var (a2, short1) := TaskStep(a1, ToGet(Short(45), 45));
            var (a3, long2) := TaskStep(a2, long1);
            var (a4, short2) := TaskStep(a3, short1);
            start.Ordered() && long2.Done? && short2.Done? && a4 == Limits(55, 45)
  {
  }
}
